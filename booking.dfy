/**
 * Mock reservation slots: a draw of three or four of six fixed evening times, shown in time
 * order, and a per-entity cache that hands out the same draw for the rest of the session.
 *
 * The two random choices (the shuffle and whether a fourth slot is shown) are an input: the
 * shuffle is any reordering of the six times, and `extraSlot` says whether
 * `Math.floor(Math.random() * 2)` came out as 1.
 */
module Booking {
  import opened Wrappers
  import opened Seqs
  import opened Strings
  import opened Sorting

  const AllSlots: seq<string> := ["6:30 PM", "7:00 PM", "7:15 PM", "8:00 PM", "8:30 PM", "9:00 PM"]

  /** The randomness one draw consumes: the order the shuffle left the six times in, and the coin for a fourth slot. */
  datatype Draw = Draw(shuffled: seq<string>, extraSlot: bool)

  /** A shuffle only reorders the six times. */
  predicate IsShuffle(d: Draw) {
    multiset(d.shuffled) == multiset(AllSlots)
  }

  /** The draws a shuffle can produce. */
  type ShuffleDraw = d: Draw | IsShuffle(d) witness Draw(AllSlots, false)

  /** The value of a string of decimal digits. */
  function DigitsValue(s: string): nat {
    if s == [] then 0 else 10 * DigitsValue(s[..|s| - 1]) + DigitValue(s[|s| - 1])
  }

  function DigitValue(c: char): nat {
    if IsDigit(c) then c as nat - '0' as nat else 0
  }

  /** `Number(s)` for a string of decimal digits; any other string (NaN in the source) reads as 0. */
  function DecimalValue(s: string): (n: nat)
    ensures (forall i :: 0 <= i < |s| ==> IsDigit(s[i])) ==> n == DigitsValue(s)
  {
    if forall i :: 0 <= i < |s| ==> IsDigit(s[i]) then DigitsValue(s) else 0
  }

  /** The index of the first `c` in `s`, or `|s|` when there is none. */
  function FirstIndex(s: string, c: char): (k: nat)
    ensures k <= |s|
    ensures forall j :: 0 <= j < k ==> s[j] != c
    ensures k < |s| ==> s[k] == c
  {
    if s == [] then 0 else if s[0] == c then 0 else 1 + FirstIndex(s[1..], c)
  }

  /** `s.split(c)[0]`. */
  function Field0(s: string, c: char): string {
    s[..FirstIndex(s, c)]
  }

  /** `s.split(c)[1]`, where a missing field (undefined in the source) reads as "". */
  function Field1(s: string, c: char): string {
    var k := FirstIndex(s, c);
    if k == |s| then "" else Field0(s[k + 1..], c)
  }

  /**
   * Minutes of a "H:MM AM|PM" slot: the hour (12 counting as 0) times 60, plus the minutes,
   * plus 720 in the afternoon.
   */
  function TimeValue(slot: string): nat {
    var time := Field0(slot, ' ');
    var period := Field1(slot, ' ');
    var h := DecimalValue(Field0(time, ':'));
    var m := DecimalValue(Field1(time, ':'));
    (if h == 12 then 0 else h) * 60 + m + (if period == "PM" then 720 else 0)
  }

  function TimeKey(slot: string): real {
    TimeValue(slot) as real
  }

  /** The slots of one draw: shuffle, keep the first three or four, put them in time order. */
  function GenerateMockSlots(d: ShuffleDraw): (r: seq<string>)
    ensures |r| == if d.extraSlot then 4 else 3
    ensures multiset(r) <= multiset(AllSlots)
  {
    assert |d.shuffled| == |multiset(AllSlots)| == 6;
    var count := Min(3 + (if d.extraSlot then 1 else 0), |AllSlots|);
    MultisetPrefix(d.shuffled);
    SortBy(d.shuffled[..count], TimeKey)
  }

  function Min(a: int, b: int): int {
    if a <= b then a else b
  }

  lemma MultisetPrefix(s: seq<string>)
    ensures forall k :: 0 <= k <= |s| ==> multiset(s[..k]) <= multiset(s)
  {
    forall k | 0 <= k <= |s| ensures multiset(s[..k]) <= multiset(s) {
      assert s == s[..k] + s[k..];
    }
  }

  /** The shape every draw has: three or four of the six times, none twice, in time order. */
  ghost predicate IsSlotDraw(r: seq<string>) {
    (|r| == 3 || |r| == 4)
    && (forall i :: 0 <= i < |r| ==> r[i] in AllSlots)
    && (forall i, j :: 0 <= i < j < |r| ==> r[i] != r[j])
    && SortedBy(r, TimeKey)
  }

  /** A sub-multiset of a list without repeats has no repeats either. */
  lemma SubMultisetDistinct(r: seq<string>, s: seq<string>)
    requires multiset(r) <= multiset(s)
    requires forall i, j :: 0 <= i < j < |s| ==> s[i] != s[j]
    ensures forall i :: 0 <= i < |r| ==> r[i] in s
    ensures forall i, j :: 0 <= i < j < |r| ==> r[i] != r[j]
  {
    forall i | 0 <= i < |r| ensures r[i] in s {
      assert r[i] in multiset(r);
    }
    forall i, j | 0 <= i < j < |r| ensures r[i] != r[j] {
      if r[i] == r[j] {
        RepeatCounted(r, i, j);
        SingleOccurrence(s, r[i]);
      }
    }
  }

  lemma {:induction false} SingleOccurrence(s: seq<string>, x: string)
    requires forall i, j :: 0 <= i < j < |s| ==> s[i] != s[j]
    ensures multiset(s)[x] <= 1
  {
    if s != [] {
      assert s == [s[0]] + s[1..];
      SingleOccurrence(s[1..], x);
      if s[0] == x {
        assert x !in s[1..];
      }
    }
  }

  /** Every draw is three or four distinct fixed times in time order. */
  lemma GenerateMockSlotsIsSlotDraw(d: ShuffleDraw)
    ensures IsSlotDraw(GenerateMockSlots(d))
  {
    var r := GenerateMockSlots(d);
    AllSlotsDistinct();
    SubMultisetDistinct(r, AllSlots);
    assert |d.shuffled| == |multiset(AllSlots)| == 6;
    var count := Min(3 + (if d.extraSlot then 1 else 0), |AllSlots|);
    SortBySorted(d.shuffled[..count], TimeKey);
  }

  /** No time is listed twice. */
  lemma AllSlotsDistinct()
    ensures forall i, j :: 0 <= i < j < |AllSlots| ==> AllSlots[i] != AllSlots[j]
  {
    var hours := "677889";
    var tens := "301030";
    assert forall i :: 0 <= i < 6 ==> AllSlots[i][0] == hours[i] && AllSlots[i][2] == tens[i];
  }

  /**
   * The sort key of a slot written "<hour>:<minutes> <period>": the hour (12 counting as 0)
   * times 60, plus the minutes, plus 720 when the period is "PM".
   */
  lemma TimeValueOfSlot(h: string, m: string, period: string)
    requires forall i :: 0 <= i < |h| ==> IsDigit(h[i])
    requires forall i :: 0 <= i < |m| ==> IsDigit(m[i])
    requires ' ' !in period
    ensures TimeValue(h + ":" + m + " " + period)
            == (if DigitsValue(h) == 12 then 0 else DigitsValue(h)) * 60 + DigitsValue(m)
               + (if period == "PM" then 720 else 0)
  {
    var time := h + ":" + m;
    assert ' ' !in time by {
      forall i | 0 <= i < |time| ensures time[i] != ' ' {
        if i < |h| { assert time[i] == h[i]; }
        else if i > |h| { assert time[i] == m[i - |h| - 1]; }
      }
    }
    SplitAtSeparator(time, ' ', period);
    HourAndMinutes(h, m);
    assert h + ":" + m + " " + period == time + [' '] + period;
    assert DecimalValue(h) == DigitsValue(h) && DecimalValue(m) == DigitsValue(m);
  }

  /** Splitting `a + [c] + b` with no `c` in either part gives back both parts. */
  lemma SplitAtSeparator(a: string, c: char, b: string)
    requires c !in a && c !in b
    ensures Field0(a + [c] + b, c) == a && Field1(a + [c] + b, c) == b
  {
    FieldsOfJoin(a, c, b);
    FirstIndexAt(b, c, |b|);
    assert b[..|b|] == b;
  }

  /** "H:MM" splits at the colon into the hour and the minutes digits. */
  lemma HourAndMinutes(h: string, m: string)
    requires forall i :: 0 <= i < |h| ==> IsDigit(h[i])
    requires forall i :: 0 <= i < |m| ==> IsDigit(m[i])
    ensures Field0(h + ":" + m, ':') == h && Field1(h + ":" + m, ':') == m
  {
    assert ':' !in h by {
      forall i | 0 <= i < |h| ensures h[i] != ':' { assert IsDigit(h[i]); }
    }
    assert ':' !in m by {
      forall i | 0 <= i < |m| ensures m[i] != ':' { assert IsDigit(m[i]); }
    }
    SplitAtSeparator(h, ':', m);
    assert h + ":" + m == h + [':'] + m;
  }

  /** `FirstIndex` is the position of the first occurrence. */
  lemma FirstIndexAt(s: string, c: char, k: nat)
    requires k <= |s| && c !in s[..k] && (k < |s| ==> s[k] == c)
    ensures FirstIndex(s, c) == k
  {
  }

  /** Splitting `a + [c] + b` at its first `c` gives `a` and the first field of `b`. */
  lemma FieldsOfJoin(a: string, c: char, b: string)
    requires c !in a
    ensures Field0(a + [c] + b, c) == a
    ensures Field1(a + [c] + b, c) == Field0(b, c)
  {
    var s := a + [c] + b;
    FirstIndexAt(s, c, |a|);
    assert s[..|a|] == a && s[|a| + 1..] == b;
  }

  /**
   * The memo cache keyed by entity: the first lookup for a key stores a drawn draw, later
   * lookups return the stored one. A stored empty list would still count as present, since an
   * array is truthy; draws are never empty anyway.
   */
  function Availability(slots: map<string, seq<string>>, entityId: string, d: ShuffleDraw): (r: (seq<string>, map<string, seq<string>>))
  {
    if entityId in slots then (slots[entityId], slots)
    else
      var drawn := GenerateMockSlots(d);
      (drawn, slots[entityId := drawn])
  }

  /** A known key returns its cached list; a new key returns a fresh draw. */
  lemma AvailabilityLookup(slots: map<string, seq<string>>, entityId: string, d: ShuffleDraw)
    ensures entityId in slots ==> Availability(slots, entityId, d).0 == slots[entityId]
    ensures entityId !in slots ==> Availability(slots, entityId, d).0 == GenerateMockSlots(d)
  {
  }

  /**
   * Afterwards the cache maps the key to the returned list, keeps every entry it had, and
   * holds no key but those and the looked-up one.
   */
  lemma AvailabilityStores(slots: map<string, seq<string>>, entityId: string, d: ShuffleDraw)
    ensures entityId in Availability(slots, entityId, d).1
    ensures Availability(slots, entityId, d).1[entityId] == Availability(slots, entityId, d).0
    ensures forall k :: k in slots ==> k in Availability(slots, entityId, d).1 && Availability(slots, entityId, d).1[k] == slots[k]
    ensures forall k :: k in Availability(slots, entityId, d).1 <==> k in slots || k == entityId
  {
    var drawn := GenerateMockSlots(d);
    StoreKeepsEntries(slots, entityId, drawn);
  }

  /** Storing `drawn` under a missing key, or looking up a present one, keeps every entry. */
  lemma StoreKeepsEntries(slots: map<string, seq<string>>, key: string, drawn: seq<string>)
    ensures var r := if key in slots then (slots[key], slots) else (drawn, slots[key := drawn]);
      && key in r.1 && r.1[key] == r.0
      && (forall k :: k in slots ==> k in r.1 && r.1[k] == slots[k])
      && (forall k :: k in r.1 <==> k in slots || k == key)
  {
  }

  /** A second lookup of the same key returns the first one's list, whatever the second draw. */
  lemma AvailabilityRepeats(slots: map<string, seq<string>>, entityId: string, d1: ShuffleDraw, d2: ShuffleDraw)
    ensures var (r1, slots1) := Availability(slots, entityId, d1);
      Availability(slots1, entityId, d2) == (r1, slots1)
  {
    AvailabilityLookup(slots, entityId, d1);
    AvailabilityStores(slots, entityId, d1);
  }

  /** Every list a cache holds is a draw. */
  ghost predicate AllDraws(slots: map<string, seq<string>>) {
    forall k :: k in slots ==> IsSlotDraw(slots[k])
  }

  /** A lookup on a cache of draws returns a draw and leaves a cache of draws. */
  lemma AvailabilityKeepsDraws(slots: map<string, seq<string>>, entityId: string, d: ShuffleDraw)
    requires AllDraws(slots)
    ensures var (r, slots') := Availability(slots, entityId, d);
      IsSlotDraw(r) && AllDraws(slots')
  {
    AvailabilityLookup(slots, entityId, d);
    AvailabilityStores(slots, entityId, d);
    if entityId !in slots {
      GenerateMockSlotsIsSlotDraw(d);
    }
  }

  /** The session-wide slot cache. */
  class SlotCache {
    var slots: map<string, seq<string>>

    /** Every cached list is a draw. */
    ghost predicate Valid()
      reads this
    {
      AllDraws(slots)
    }

    constructor ()
      ensures slots == map[] && Valid()
    {
      slots := map[];
    }

    method GetMockAvailability(entityId: string, d: ShuffleDraw) returns (r: seq<string>)
      modifies this
      requires Valid()
      ensures Valid()
      ensures r == Availability(old(slots), entityId, d).0 && slots == Availability(old(slots), entityId, d).1
      ensures IsSlotDraw(r)
    {
      AvailabilityKeepsDraws(slots, entityId, d);
      AvailabilityLookup(slots, entityId, d);
      AvailabilityStores(slots, entityId, d);
      if entityId !in slots {
        var drawn := GenerateMockSlots(d);
        slots := slots[entityId := drawn];
      }
      r := slots[entityId];
    }
  }
}
