/**
 * The entity pipeline: normalisation of the API's raw business records (flatten, summary
 * fallback, mock-slot injection, de-duplication, rating sort) and the filter that keeps the
 * businesses the final reply text mentions, in order of mention.
 */
module Entities {
  import opened Wrappers
  import opened Seqs
  import opened Strings
  import opened Sorting
  import opened Yelp
  import opened Booking

  // ================================================================ normalisation

  /** The records an element contributes: its non-empty `businesses` list, else itself. */
  function Members(entity: Entity): (r: seq<Entity>)
    ensures |r| >= 1
    ensures |entity.businesses| > 0 ==> r == entity.businesses
    ensures |entity.businesses| == 0 ==> r == [entity]
  {
    if |entity.businesses| > 0 then entity.businesses else [entity]
  }

  /** The first present value of `options[i..]`. */
  function FirstPresentFrom(options: seq<Option<string>>, i: nat): (r: Option<string>)
    decreases |options| - i
    ensures r.None? ==> forall k :: i <= k < |options| ==> options[k].None?
    ensures r.Some? ==> exists k :: i <= k < |options| && options[k] == r && forall j :: i <= j < k ==> options[j].None?
  {
    if i >= |options| then None
    else if options[i].Some? then options[i]
    else FirstPresentFrom(options, i + 1)
  }

  /** The first present value of a list of optional values. */
  function FirstPresent(options: seq<Option<string>>): (r: Option<string>)
    ensures r.None? ==> forall i :: 0 <= i < |options| ==> options[i].None?
    ensures r.Some? ==> exists i :: 0 <= i < |options| && options[i] == r && forall j :: 0 <= j < i ==> options[j].None?
  {
    FirstPresentFrom(options, 0)
  }

  /**
   * The normalised record for `source`, found in the raw element `container`: its own
   * descriptive fields; the summary by the fixed priority chain; categories, reservation url
   * and actions from the source, else from the container.
   */
  function Normalize(source: Entity, container: Entity): (e: Entity)
    ensures e.id == source.id && e.name == source.name && e.url == source.url && e.phone == source.phone
    ensures e.rating == source.rating && e.price == source.price && e.distance == source.distance
    ensures e.location == source.location && e.coordinates == source.coordinates
    ensures e.categories == (if source.categories.Some? then source.categories else container.categories)
    ensures e.reservationUrl == (if source.reservationUrl.Some? then source.reservationUrl else container.reservationUrl)
    ensures e.actions == (if source.actions.Some? then source.actions else container.actions)
    ensures e.mockSlots == None && e.businesses == []
    ensures e.contextualSummary == None && e.shortSummary == None && e.bizSummary == None
  {
    var summary := OrElse(source.contextualSummary, OrElse(source.shortSummary, OrElse(source.bizSummary,
                     OrElse(container.contextualSummary, container.shortSummary))));
    Entity(id := source.id, name := source.name, url := source.url, phone := source.phone,
           rating := source.rating, price := source.price, distance := source.distance,
           location := source.location, coordinates := source.coordinates,
           categories := OrElse(source.categories, container.categories),
           reservationUrl := OrElse(source.reservationUrl, container.reservationUrl),
           actions := OrElse(source.actions, container.actions),
           summary := summary, mockSlots := None,
           contextualSummary := None, shortSummary := None, bizSummary := None, businesses := [])
  }

  /** The summary is the first present of the five sources, in priority order. */
  lemma NormalizeSummary(source: Entity, container: Entity)
    ensures Normalize(source, container).summary
            == FirstPresent([source.contextualSummary, source.shortSummary, source.bizSummary,
                             container.contextualSummary, container.shortSummary])
  {
    var l := [source.contextualSummary, source.shortSummary, source.bizSummary,
              container.contextualSummary, container.shortSummary];
    assert FirstPresentFrom(l, 4) == OrElse(l[4], None);
    assert FirstPresentFrom(l, 3) == OrElse(l[3], FirstPresentFrom(l, 4));
    assert FirstPresentFrom(l, 2) == OrElse(l[2], FirstPresentFrom(l, 3));
    assert FirstPresentFrom(l, 1) == OrElse(l[1], FirstPresentFrom(l, 2));
    assert FirstPresentFrom(l, 0) == OrElse(l[0], FirstPresentFrom(l, 1));
  }

  /** The normalised records of one raw element, in order. */
  function FlattenOne(entity: Entity): (r: seq<Entity>)
    ensures |r| == |Members(entity)|
    ensures forall i :: 0 <= i < |r| ==> r[i] == Normalize(Members(entity)[i], entity)
  {
    var members := Members(entity);
    seq(|members|, i requires 0 <= i < |members| => Normalize(members[i], entity))
  }

  /** The normalised records of every raw element, in order (before slots are attached). */
  function Flatten(raw: seq<Entity>): (r: seq<Entity>)
    ensures forall i :: 0 <= i < |r| ==> r[i].mockSlots == None
  {
    if raw == [] then [] else Flatten(raw[..|raw| - 1]) + FlattenOne(raw[|raw| - 1])
  }

  /** Flattening a single element that has no `businesses` list yields exactly its own normalised record. */
  lemma FlattenPlainRecord(entity: Entity)
    requires |entity.businesses| == 0
    ensures Flatten([entity]) == [Normalize(entity, entity)]
  {
    assert [entity][..0] == [];
  }

  /** The key the slot cache is read with: `id || name`, where an absent name becomes the key "undefined". */
  function SlotKey(e: Entity): string {
    if Truthy(e.id) then e.id.value else if e.name.Some? then e.name.value else "undefined"
  }

  /**
   * One record's slots: a reservable record gets the cache's list for its key (drawing with
   * `d` if the key is new); any other record is left as it is. Returns the record and the cache.
   */
  function AttachOne(e: Entity, slots: map<string, seq<string>>, d: ShuffleDraw): (r: (Entity, map<string, seq<string>>))
  {
    if HasReservation(e) then
      var a := Availability(slots, SlotKey(e), d);
      (e.(mockSlots := Some(a.0)), a.1)
    else (e, slots)
  }

  /** Mock slots attached left to right, the k-th record drawing with `draws(k)`. Returns the records and the cache. */
  function AttachSlots(es: seq<Entity>, slots: map<string, seq<string>>, draws: nat -> ShuffleDraw)
    : (r: (seq<Entity>, map<string, seq<string>>))
    ensures |r.0| == |es|
  {
    if es == [] then ([], slots)
    else
      var p := AttachSlots(es[..|es| - 1], slots, draws);
      var o := AttachOne(es[|es| - 1], p.1, draws(|es| - 1));
      (p.0 + [o.0], o.1)
  }

  /** Attaching to one record changes only its `mockSlots`, and sets them iff the record is reservable. */
  lemma AttachOneShape(e: Entity, slots: map<string, seq<string>>, d: ShuffleDraw)
    requires e.mockSlots == None
    ensures var r := AttachOne(e, slots, d).0;
      r == e.(mockSlots := r.mockSlots) && (r.mockSlots.Some? <==> HasReservation(e))
  {
  }

  /** Attaching to one record keeps the cache's entries and adds the record's key iff it is reservable. */
  lemma AttachOneCache(e: Entity, slots: map<string, seq<string>>, d: ShuffleDraw)
    ensures forall k :: k in slots ==> k in AttachOne(e, slots, d).1 && AttachOne(e, slots, d).1[k] == slots[k]
    ensures forall k :: k in AttachOne(e, slots, d).1 <==> k in slots || (HasReservation(e) && k == SlotKey(e))
  {
    if HasReservation(e) {
      AvailabilityLookup(slots, SlotKey(e), d);
      AvailabilityStores(slots, SlotKey(e), d);
    }
  }

  /** The cache keys of the reservable records of a list. */
  function ReservableKeys(es: seq<Entity>): set<string> {
    if es == [] then {}
    else ReservableKeys(es[..|es| - 1]) + (if HasReservation(es[|es| - 1]) then {SlotKey(es[|es| - 1])} else {})
  }

  /** A key is among the reservable keys iff some reservable record of the list has it. */
  lemma {:induction false} ReservableKeysMembers(es: seq<Entity>, k: string)
    decreases |es|
    ensures k in ReservableKeys(es) <==> exists i :: 0 <= i < |es| && HasReservation(es[i]) && SlotKey(es[i]) == k
  {
    if es != [] {
      var front := es[..|es| - 1];
      ReservableKeysMembers(front, k);
      assert forall i :: 0 <= i < |front| ==> front[i] == es[i];
    }
  }

  /** Attaching slots changes nothing but `mockSlots`, and sets it exactly on the reservable records. */
  lemma {:induction false} AttachSlotsShape(es: seq<Entity>, slots: map<string, seq<string>>, draws: nat -> ShuffleDraw)
    requires forall i :: 0 <= i < |es| ==> es[i].mockSlots == None
    decreases |es|
    ensures forall i :: 0 <= i < |es| ==>
      AttachSlots(es, slots, draws).0[i] == es[i].(mockSlots := AttachSlots(es, slots, draws).0[i].mockSlots)
    ensures forall i :: 0 <= i < |es| ==> (AttachSlots(es, slots, draws).0[i].mockSlots.Some? <==> HasReservation(es[i]))
  {
    if es != [] {
      var front := es[..|es| - 1];
      AttachSlotsShape(front, slots, draws);
      var p := AttachSlots(front, slots, draws);
      var o := AttachOne(es[|es| - 1], p.1, draws(|es| - 1));
      AttachOneShape(es[|es| - 1], p.1, draws(|es| - 1));
      var r := AttachSlots(es, slots, draws).0;
      assert r == p.0 + [o.0];
      forall i | 0 <= i < |es| - 1
        ensures r[i] == es[i].(mockSlots := r[i].mockSlots) && (r[i].mockSlots.Some? <==> HasReservation(es[i]))
      {
        assert r[i] == p.0[i] && es[i] == front[i];
      }
    }
  }

  /** Attaching slots keeps every entry the cache already had. */
  lemma {:induction false} AttachSlotsKeepsCache(es: seq<Entity>, slots: map<string, seq<string>>, draws: nat -> ShuffleDraw)
    decreases |es|
    ensures forall k :: k in slots ==> k in AttachSlots(es, slots, draws).1 && AttachSlots(es, slots, draws).1[k] == slots[k]
  {
    if es != [] {
      var front := es[..|es| - 1];
      AttachSlotsKeepsCache(front, slots, draws);
      var p := AttachSlots(front, slots, draws);
      AttachOneCache(es[|es| - 1], p.1, draws(|es| - 1));
    }
  }

  /** Attaching slots adds exactly the keys of the reservable records to the cache. */
  lemma {:induction false} AttachSlotsCacheKeys(es: seq<Entity>, slots: map<string, seq<string>>, draws: nat -> ShuffleDraw, k: string)
    decreases |es|
    ensures k in AttachSlots(es, slots, draws).1 <==> k in slots || k in ReservableKeys(es)
  {
    if es != [] {
      var front := es[..|es| - 1];
      AttachSlotsCacheKeys(front, slots, draws, k);
      AttachOneCache(es[|es| - 1], AttachSlots(front, slots, draws).1, draws(|es| - 1));
    }
  }

  /** Each reservable record carries the list the cache ends up holding for its key. */
  lemma {:induction false} AttachSlotsConsistent(es: seq<Entity>, slots: map<string, seq<string>>, draws: nat -> ShuffleDraw)
    decreases |es|
    ensures forall i :: 0 <= i < |es| && HasReservation(es[i]) ==>
      && SlotKey(es[i]) in AttachSlots(es, slots, draws).1
      && AttachSlots(es, slots, draws).0[i].mockSlots == Some(AttachSlots(es, slots, draws).1[SlotKey(es[i])])
  {
    if es != [] {
      var front := es[..|es| - 1];
      AttachSlotsConsistent(front, slots, draws);
      var p := AttachSlots(front, slots, draws);
      var e := es[|es| - 1];
      var o := AttachOne(e, p.1, draws(|es| - 1));
      var r := AttachSlots(es, slots, draws).0;
      assert r == p.0 + [o.0];
      if HasReservation(e) {
        AvailabilityLookup(p.1, SlotKey(e), draws(|es| - 1));
        AvailabilityStores(p.1, SlotKey(e), draws(|es| - 1));
      }
      forall i | 0 <= i < |es| - 1 && HasReservation(es[i])
        ensures SlotKey(es[i]) in o.1 && r[i].mockSlots == Some(o.1[SlotKey(es[i])])
      {
        assert r[i] == p.0[i] && es[i] == front[i];
      }
    }
  }

  /** The de-duplication key `id || name || url`: the first non-empty of the three, if any. */
  function DedupKey(e: Entity): (k: Option<string>)
    ensures k.Some? ==> k.value != ""
    ensures k.None? <==> !Truthy(e.id) && !Truthy(e.name) && !Truthy(e.url)
  {
    if Truthy(e.id) then e.id else if Truthy(e.name) then e.name else if Truthy(e.url) then e.url else None
  }

  /** The set of keys of a list of records. */
  function KeysOf(s: seq<Entity>): set<string> {
    if s == [] then {}
    else
      var key := DedupKey(s[|s| - 1]);
      KeysOf(s[..|s| - 1]) + (if key.Some? then {key.value} else {})
  }

  /** A key is in `KeysOf(s)` iff some record of `s` has it. */
  lemma {:induction false} KeysOfMembers(s: seq<Entity>, k: string)
    decreases |s|
    ensures k in KeysOf(s) <==> exists i :: 0 <= i < |s| && DedupKey(s[i]) == Some(k)
  {
    if s != [] {
      var front := s[..|s| - 1];
      KeysOfMembers(front, k);
      assert forall i :: 0 <= i < |front| ==> front[i] == s[i];
    }
  }

  /** The records left after de-duplication: each one whose key is truthy and not yet seen. */
  function Dedup(es: seq<Entity>): (r: seq<Entity>)
    ensures |r| <= |es|
  {
    if es == [] then []
    else
      var front := Dedup(es[..|es| - 1]);
      var key := DedupKey(es[|es| - 1]);
      if key.Some? && key.value !in KeysOf(front) then front + [es[|es| - 1]] else front
  }

  /** Whether `es[i]` is the first record of `es` with its (truthy) key. */
  ghost predicate FirstOfKey(es: seq<Entity>, i: int)
    requires 0 <= i < |es|
  {
    DedupKey(es[i]).Some? && forall j :: 0 <= j < i ==> DedupKey(es[j]) != DedupKey(es[i])
  }

  /** De-duplication sees every key of its input. */
  lemma {:induction false} DedupKeys(es: seq<Entity>)
    decreases |es|
    ensures KeysOf(Dedup(es)) == KeysOf(es)
  {
    if es != [] {
      var front := es[..|es| - 1];
      DedupKeys(front);
      var r0 := Dedup(front);
      var key := DedupKey(es[|es| - 1]);
      var r := Dedup(es);
      if key.Some? && key.value !in KeysOf(r0) {
        assert r[..|r| - 1] == r0;
      } else {
        assert r == r0;
      }
    }
  }

  /** Every kept record has a truthy key. */
  lemma {:induction false} DedupKeysTruthy(es: seq<Entity>)
    decreases |es|
    ensures forall i :: 0 <= i < |Dedup(es)| ==> DedupKey(Dedup(es)[i]).Some?
  {
    if es != [] {
      DedupKeysTruthy(es[..|es| - 1]);
    }
  }

  /** The kept records' keys are pairwise distinct. */
  lemma {:induction false} DedupDistinct(es: seq<Entity>)
    decreases |es|
    ensures forall i, j :: 0 <= i < j < |Dedup(es)| ==> DedupKey(Dedup(es)[i]) != DedupKey(Dedup(es)[j])
  {
    if es != [] {
      var front := es[..|es| - 1];
      DedupDistinct(front);
      var r0 := Dedup(front);
      var key := DedupKey(es[|es| - 1]);
      var r := Dedup(es);
      if key.Some? && key.value !in KeysOf(r0) {
        KeysOfMembers(r0, key.value);
        assert r == r0 + [es[|es| - 1]];
        forall i, j | 0 <= i < j < |r| ensures DedupKey(r[i]) != DedupKey(r[j]) {
          assert r[i] == r0[i];
          if j < |r0| {
            assert r[j] == r0[j];
          } else {
            assert DedupKey(r0[i]) != Some(key.value);
          }
        }
      }
    }
  }

  /** The last record is the first of its key iff its key is truthy and unseen before it. */
  lemma LastFirstOfKey(es: seq<Entity>)
    requires es != []
    ensures var key := DedupKey(es[|es| - 1]);
      FirstOfKey(es, |es| - 1) <==> key.Some? && key.value !in KeysOf(es[..|es| - 1])
  {
    var key := DedupKey(es[|es| - 1]);
    if key.Some? {
      KeysOfMembers(es[..|es| - 1], key.value);
    }
  }

  /** A record before the end is first of its key in `es` iff it is in `es` without its last record. */
  lemma FirstOfKeyFront(es: seq<Entity>, i: nat)
    requires i < |es| - 1
    ensures FirstOfKey(es, i) <==> FirstOfKey(es[..|es| - 1], i)
  {
    assert forall j :: 0 <= j <= i ==> es[..|es| - 1][j] == es[j];
  }

  /** Every kept record is the first record of its key. */
  lemma {:induction false} DedupKeepsFirsts(es: seq<Entity>, x: Entity)
    requires x in Dedup(es)
    decreases |es|
    ensures exists i :: 0 <= i < |es| && FirstOfKey(es, i) && es[i] == x
  {
    var front := es[..|es| - 1];
    var r0 := Dedup(front);
    var key := DedupKey(es[|es| - 1]);
    var kept := key.Some? && key.value !in KeysOf(r0);
    assert Dedup(es) == if kept then r0 + [es[|es| - 1]] else r0;
    if x in r0 {
      DedupKeepsFirsts(front, x);
      var i :| 0 <= i < |front| && FirstOfKey(front, i) && front[i] == x;
      FirstOfKeyFront(es, i);
    } else {
      DedupKeys(front);
      LastFirstOfKey(es);
      assert FirstOfKey(es, |es| - 1);
    }
  }

  /** Every first record of a key is kept. */
  lemma {:induction false} DedupKeepsAllFirsts(es: seq<Entity>)
    decreases |es|
    ensures forall i :: 0 <= i < |es| && FirstOfKey(es, i) ==> es[i] in Dedup(es)
  {
    if es != [] {
      var front := es[..|es| - 1];
      DedupKeepsAllFirsts(front);
      DedupKeys(front);
      LastFirstOfKey(es);
      var r0 := Dedup(front);
      assert forall x :: x in r0 ==> x in Dedup(es);
      forall i | 0 <= i < |es| - 1 && FirstOfKey(es, i) ensures es[i] in Dedup(es) {
        FirstOfKeyFront(es, i);
        assert es[i] == front[i];
      }
    }
  }

  /** The first records of their keys among `es[..n]`, judged over the whole of `es`, in input order. */
  ghost function FirstsUpTo(es: seq<Entity>, n: nat): seq<Entity>
    requires n <= |es|
    decreases n
  {
    if n == 0 then [] else FirstsUpTo(es, n - 1) + (if FirstOfKey(es, n - 1) then [es[n - 1]] else [])
  }

  /** The first record of each key, in input order. */
  ghost function Firsts(es: seq<Entity>): seq<Entity> {
    FirstsUpTo(es, |es|)
  }

  lemma {:induction false} FirstsUpToFront(es: seq<Entity>, n: nat)
    requires n < |es|
    decreases n
    ensures FirstsUpTo(es, n) == FirstsUpTo(es[..|es| - 1], n)
  {
    if n > 0 {
      FirstsUpToFront(es, n - 1);
      FirstOfKeyFront(es, n - 1);
    }
  }

  /** De-duplication keeps exactly the first record of each key, in input order. */
  lemma {:induction false} DedupInOrder(es: seq<Entity>)
    decreases |es|
    ensures Dedup(es) == Firsts(es)
  {
    if es != [] {
      var front := es[..|es| - 1];
      DedupInOrder(front);
      FirstsUpToFront(es, |es| - 1);
      DedupKeys(front);
      LastFirstOfKey(es);
    }
  }

  /** The rating sort key: descending `rating ?? 0` as an ascending sort on its negation. */
  function RatingKey(e: Entity): real {
    -e.rating.GetOr(0.0)
  }

  function Rating(e: Entity): real {
    e.rating.GetOr(0.0)
  }

  /** The stable sort by descending rating, an absent rating counting as 0. */
  function SortByRating(es: seq<Entity>): (r: seq<Entity>)
    ensures multiset(r) == multiset(es)
  {
    SortBy(es, RatingKey)
  }

  /** The sort yields ratings in non-increasing order and keeps equal ratings in their input order. */
  lemma SortByRatingSpec(es: seq<Entity>)
    ensures forall i, j :: 0 <= i < j < |SortByRating(es)| ==> Rating(SortByRating(es)[i]) >= Rating(SortByRating(es)[j])
    ensures forall v :: WithKey(SortByRating(es), RatingKey, v) == WithKey(es, RatingKey, v)
  {
    SortBySorted(es, RatingKey);
    forall v ensures WithKey(SortByRating(es), RatingKey, v) == WithKey(es, RatingKey, v) {
      SortByStable(es, RatingKey, v);
    }
  }

  /**
   * `normalizeEntities` as a function of the raw elements, the slot cache before the call and
   * the draws: the de-duplicated records with their slots, sorted by rating; and the cache after.
   */
  function Normalized(raw: seq<Entity>, slots: map<string, seq<string>>, draws: nat -> ShuffleDraw)
    : (r: (seq<Entity>, map<string, seq<string>>))
  {
    var attached := AttachSlots(Flatten(raw), slots, draws);
    (SortByRating(Dedup(attached.0)), attached.1)
  }

  /** The flattened records with their slots, before de-duplication and sorting. */
  function Attached(raw: seq<Entity>, slots: map<string, seq<string>>, draws: nat -> ShuffleDraw): seq<Entity> {
    AttachSlots(Flatten(raw), slots, draws).0
  }

  /** The output is a reordering of the de-duplicated records, whose keys are truthy and pairwise distinct. */
  lemma NormalizedKeys(raw: seq<Entity>, slots: map<string, seq<string>>, draws: nat -> ShuffleDraw)
    ensures multiset(Normalized(raw, slots, draws).0) == multiset(Dedup(Attached(raw, slots, draws)))
    ensures forall i, j :: 0 <= i < j < |Normalized(raw, slots, draws).0| ==>
      DedupKey(Normalized(raw, slots, draws).0[i]) != DedupKey(Normalized(raw, slots, draws).0[j])
    ensures forall i :: 0 <= i < |Normalized(raw, slots, draws).0| ==> DedupKey(Normalized(raw, slots, draws).0[i]).Some?
  {
    var a := Attached(raw, slots, draws);
    assert Normalized(raw, slots, draws).0 == SortByRating(Dedup(a));
    DedupKeysTruthy(a);
    DedupDistinct(a);
    DistinctKeysUnderPermutation(Dedup(a), SortByRating(Dedup(a)));
  }

  /** The output's ratings do not increase, and equal ratings keep their order of first appearance. */
  lemma NormalizedOrder(raw: seq<Entity>, slots: map<string, seq<string>>, draws: nat -> ShuffleDraw)
    ensures forall i, j :: 0 <= i < j < |Normalized(raw, slots, draws).0| ==>
      Rating(Normalized(raw, slots, draws).0[i]) >= Rating(Normalized(raw, slots, draws).0[j])
    ensures forall v :: WithKey(Normalized(raw, slots, draws).0, RatingKey, v) == WithKey(Dedup(Attached(raw, slots, draws)), RatingKey, v)
  {
    var a := Attached(raw, slots, draws);
    assert Normalized(raw, slots, draws).0 == SortByRating(Dedup(a));
    SortByRatingSpec(Dedup(a));
  }

  /** A record of the sorted output is a kept record of `a`, hence the first of its key in `a`. */
  lemma SortedDedupFirsts(a: seq<Entity>, x: Entity)
    requires x in SortByRating(Dedup(a))
    ensures exists j :: 0 <= j < |a| && FirstOfKey(a, j) && a[j] == x
  {
    assert x in Dedup(a) by {
      assert x in multiset(SortByRating(Dedup(a)));
    }
    DedupKeepsFirsts(a, x);
  }

  /** Each output record is the first flattened record of its key, carrying slots exactly when it is reservable. */
  lemma NormalizedRecords(raw: seq<Entity>, slots: map<string, seq<string>>, draws: nat -> ShuffleDraw, x: Entity)
    requires x in Normalized(raw, slots, draws).0
    ensures exists j ::
      0 <= j < |Attached(raw, slots, draws)| && FirstOfKey(Attached(raw, slots, draws), j) && Attached(raw, slots, draws)[j] == x
    ensures x.mockSlots.Some? <==> HasReservation(x)
  {
    var flat := Flatten(raw);
    var a := Attached(raw, slots, draws);
    assert Normalized(raw, slots, draws).0 == SortByRating(Dedup(a));
    SortedDedupFirsts(a, x);
    var j :| 0 <= j < |a| && FirstOfKey(a, j) && a[j] == x;
    AttachSlotsShape(flat, slots, draws);
    assert a[j] == flat[j].(mockSlots := a[j].mockSlots);
  }

  /** Normalisation keeps the cache's entries and adds the keys of the reservable flattened records. */
  lemma NormalizedCache(raw: seq<Entity>, slots: map<string, seq<string>>, draws: nat -> ShuffleDraw)
    ensures forall k :: k in slots ==> k in Normalized(raw, slots, draws).1 && Normalized(raw, slots, draws).1[k] == slots[k]
    ensures forall k :: k in Normalized(raw, slots, draws).1 <==> k in slots || k in ReservableKeys(Flatten(raw))
  {
    AttachSlotsKeepsCache(Flatten(raw), slots, draws);
    forall k ensures k in Normalized(raw, slots, draws).1 <==> k in slots || k in ReservableKeys(Flatten(raw)) {
      AttachSlotsCacheKeys(Flatten(raw), slots, draws, k);
    }
  }

  /** A permutation of a list with distinct keys has distinct keys. */
  lemma DistinctKeysUnderPermutation(d: seq<Entity>, r: seq<Entity>)
    requires multiset(r) == multiset(d)
    requires forall i, j :: 0 <= i < j < |d| ==> DedupKey(d[i]) != DedupKey(d[j])
    requires forall i :: 0 <= i < |d| ==> DedupKey(d[i]).Some?
    ensures forall i, j :: 0 <= i < j < |r| ==> DedupKey(r[i]) != DedupKey(r[j])
    ensures forall i :: 0 <= i < |r| ==> DedupKey(r[i]).Some?
  {
    forall i | 0 <= i < |r| ensures r[i] in d {
      assert r[i] in multiset(r);
    }
    forall i, j | 0 <= i < j < |r| ensures DedupKey(r[i]) != DedupKey(r[j]) {
      if DedupKey(r[i]) == DedupKey(r[j]) {
        var a :| 0 <= a < |d| && d[a] == r[i];
        var b :| 0 <= b < |d| && d[b] == r[j];
        assert a == b;
        assert r[i] == r[j];
        RepeatCounted(r, i, j);
        SingleOccurrenceByKey(d, r[i]);
      }
    }
  }

  lemma {:induction false} SingleOccurrenceByKey(d: seq<Entity>, x: Entity)
    requires forall i, j :: 0 <= i < j < |d| ==> DedupKey(d[i]) != DedupKey(d[j])
    ensures multiset(d)[x] <= 1
  {
    if d != [] {
      assert d == [d[0]] + d[1..];
      SingleOccurrenceByKey(d[1..], x);
      if d[0] == x {
        assert x !in d[1..] by {
          forall j | 0 <= j < |d[1..]| ensures d[1..][j] != x {
            assert d[1..][j] == d[j + 1];
          }
        }
      }
    }
  }

  lemma FlattenPrefix(raw: seq<Entity>, i: nat)
    requires i < |raw|
    ensures Flatten(raw[..i + 1]) == Flatten(raw[..i]) + FlattenOne(raw[i])
  {
    assert raw[..i + 1][..i] == raw[..i];
  }

  lemma AppendNext<T>(before: seq<T>, s: seq<T>, j: nat)
    requires j < |s|
    ensures before + s[..j + 1] == (before + s[..j]) + [s[j]]
  {
    assert s[..j + 1] == s[..j] + [s[j]];
  }

  lemma TakeAll<T>(s: seq<T>)
    ensures s[..|s|] == s
  {
  }

  lemma AttachSlotsSnoc(es: seq<Entity>, e: Entity, slots: map<string, seq<string>>, draws: nat -> ShuffleDraw)
    ensures AttachSlots(es + [e], slots, draws).0
            == AttachSlots(es, slots, draws).0 + [AttachOne(e, AttachSlots(es, slots, draws).1, draws(|es|)).0]
    ensures AttachSlots(es + [e], slots, draws).1 == AttachOne(e, AttachSlots(es, slots, draws).1, draws(|es|)).1
  {
    var s := es + [e];
    assert s != [] && |s| - 1 == |es| && s[..|s| - 1] == es && s[|s| - 1] == e;
    var p := AttachSlots(es, slots, draws);
    var o := AttachOne(e, p.1, draws(|es|));
    assert AttachSlots(s, slots, draws) == (p.0 + [o.0], o.1);
  }

  /**
   * `normalizeEntities` over the module-level slot cache: flattens and normalises the raw
   * elements, attaching slots to reservable records as it goes, then de-duplicates and sorts.
   */
  method NormalizeEntities(raw: seq<Entity>, cache: SlotCache, draws: nat -> ShuffleDraw) returns (result: seq<Entity>)
    requires cache.Valid()
    modifies cache
    ensures cache.Valid()
    ensures result == Normalized(raw, old(cache.slots), draws).0
    ensures cache.slots == Normalized(raw, old(cache.slots), draws).1
  {
    ghost var slots0 := cache.slots;
    var flattened: seq<Entity> := [];
    for i := 0 to |raw|
      invariant flattened == AttachSlots(Flatten(raw[..i]), slots0, draws).0
      invariant cache.slots == AttachSlots(Flatten(raw[..i]), slots0, draws).1
      invariant cache.Valid()
    {
      FlattenPrefix(raw, i);
      flattened := AttachElement(raw[i], cache, draws, slots0, Flatten(raw[..i]), flattened);
    }
    assert raw[..|raw|] == raw;
    var scored := DedupByKey(flattened);
    result := SortByRating(scored);
  }

  /**
   * One step of the outer loop of `normalizeEntities`: the records of one raw element, with
   * their slots, appended to `flattened`, which holds the records of the elements before.
   */
  method AttachElement(entity: Entity, cache: SlotCache, draws: nat -> ShuffleDraw,
                       ghost slots0: map<string, seq<string>>, ghost before: seq<Entity>, flattened: seq<Entity>)
    returns (flattened': seq<Entity>)
    requires cache.Valid()
    requires flattened == AttachSlots(before, slots0, draws).0 && cache.slots == AttachSlots(before, slots0, draws).1
    modifies cache
    ensures cache.Valid()
    ensures flattened' == AttachSlots(before + FlattenOne(entity), slots0, draws).0
    ensures cache.slots == AttachSlots(before + FlattenOne(entity), slots0, draws).1
  {
    flattened' := flattened;
    var businesses := Members(entity);
    assert FlattenOne(entity)[..0] == [];
    AppendEmpty(before);
    for j := 0 to |businesses|
      invariant flattened' == AttachSlots(before + FlattenOne(entity)[..j], slots0, draws).0
      invariant cache.slots == AttachSlots(before + FlattenOne(entity)[..j], slots0, draws).1
      invariant cache.Valid()
    {
      flattened' := AttachMember(entity, businesses[j], j, cache, draws, slots0, before, flattened');
    }
    TakeAll(FlattenOne(entity));
  }

  /**
   * One pass of the inner loop of `normalizeEntities`: the `j`-th member of a raw element,
   * normalised and given its slots, appended.
   */
  method AttachMember(entity: Entity, member: Entity, j: nat, cache: SlotCache, draws: nat -> ShuffleDraw,
                      ghost slots0: map<string, seq<string>>, ghost before: seq<Entity>, flattened: seq<Entity>)
    returns (flattened': seq<Entity>)
    requires j < |Members(entity)| && member == Members(entity)[j]
    requires cache.Valid()
    requires flattened == AttachSlots(before + FlattenOne(entity)[..j], slots0, draws).0
    requires cache.slots == AttachSlots(before + FlattenOne(entity)[..j], slots0, draws).1
    modifies cache
    ensures cache.Valid()
    ensures flattened' == AttachSlots(before + FlattenOne(entity)[..j + 1], slots0, draws).0
    ensures cache.slots == AttachSlots(before + FlattenOne(entity)[..j + 1], slots0, draws).1
  {
    var ent := Normalize(member, entity);
    ghost var plain := before + FlattenOne(entity)[..j];
    AppendNext(before, FlattenOne(entity), j);
    AttachSlotsSnoc(plain, ent, slots0, draws);
    var attached := AttachRecord(ent, cache, draws(|flattened|));
    flattened' := flattened + [attached];
  }

  /** "Inject mock slots if reservable": one record's slots read from (and possibly drawn into) the cache. */
  method AttachRecord(ent: Entity, cache: SlotCache, d: ShuffleDraw) returns (ent': Entity)
    requires cache.Valid()
    modifies cache
    ensures cache.Valid()
    ensures ent' == AttachOne(ent, old(cache.slots), d).0 && cache.slots == AttachOne(ent, old(cache.slots), d).1
  {
    ent' := ent;
    if HasReservation(ent) {
      var ms := cache.GetMockAvailability(SlotKey(ent), d);
      ent' := ent.(mockSlots := Some(ms));
    }
  }

  /** The de-duplication pass of `normalizeEntities`, with its `seen` set. */
  method DedupByKey(flattened: seq<Entity>) returns (scored: seq<Entity>)
    ensures scored == Dedup(flattened)
  {
    scored := [];
    var seen: set<string> := {};
    for i := 0 to |flattened|
      invariant scored == Dedup(flattened[..i])
      invariant seen == KeysOf(scored)
    {
      var item := flattened[i];
      var key := DedupKey(item);
      assert flattened[..i + 1][..i] == flattened[..i];
      if key.Some? && key.value !in seen {
        seen := seen + {key.value};
        scored := scored + [item];
        assert scored[..|scored| - 1] == Dedup(flattened[..i]);
      }
    }
    assert flattened[..|flattened|] == flattened;
  }

  // ================================================================ mention filter

  /** An entity together with where the reply text first mentions it. */
  datatype Mention = Mention(entity: Entity, index: nat)

  /**
   * `name.replace(/^(the|a|an)\s+/g, '')`: a leading article followed by white space is
   * removed together with that white space.
   */
  function StripArticle(name: string): (r: string)
    ensures |r| <= |name| && r == name[|name| - |r|..]
  {
    if |name| > 3 && name[..3] == "the" && IsJsSpace(name[3]) then TrimStart(name[3..])
    else if |name| > 1 && name[0] == 'a' && IsJsSpace(name[1]) then TrimStart(name[1..])
    else if |name| > 2 && name[..2] == "an" && IsJsSpace(name[2]) then TrimStart(name[2..])
    else name
  }

  /** The name without its leading article, cut before the first " - ", and trimmed. */
  function CleanName(name: string): string {
    Trim(BeforeFirst(StripArticle(name), " - "))
  }

  /** The name's first space-separated word. */
  function FirstWord(name: string): string {
    BeforeFirst(name, " ")
  }

  /** The lower-cased name, "" when absent. */
  function LoweredName(e: Entity): string {
    if e.name.Some? then Lower(e.name.value) else ""
  }

  /**
   * Where `lowered` mentions the entity: the exact lower-cased name; failing that the cleaned
   * name if longer than three characters; failing that the first word if at least four long.
   * A nameless entity is never mentioned.
   */
  function MatchIndex(lowered: string, e: Entity): (r: Option<nat>)
    ensures LoweredName(e) == "" ==> r.None?
    ensures r.Some? ==> (OccursAt(lowered, LoweredName(e), r.value)
                         || (|CleanName(LoweredName(e))| > 3 && OccursAt(lowered, CleanName(LoweredName(e)), r.value))
                         || (|FirstWord(LoweredName(e))| >= 4 && OccursAt(lowered, FirstWord(LoweredName(e)), r.value)))
    ensures LoweredName(e) != "" && Contains(lowered, LoweredName(e)) ==> r == IndexOf(lowered, LoweredName(e))
  {
    var name := LoweredName(e);
    if name == "" then None
    else
      var exact := IndexOf(lowered, name);
      var cleaned := if exact.Some? then exact
                     else var clean := CleanName(name);
                          if |clean| > 3 then IndexOf(lowered, clean) else None;
      if cleaned.Some? then cleaned
      else var first := FirstWord(name);
           if |first| >= 4 then IndexOf(lowered, first) else None
  }

  /**
   * The fallbacks in order: when the exact name is absent, a cleaned name longer than three
   * characters that occurs gives its first position; when that fails too, the first word
   * gives its first position if at least four characters long, and otherwise there is no match.
   */
  lemma MatchIndexFallbacks(lowered: string, e: Entity)
    ensures var name := LoweredName(e); var clean := CleanName(name);
      (name != "" && !Contains(lowered, name) && |clean| > 3 && Contains(lowered, clean))
      ==> MatchIndex(lowered, e) == IndexOf(lowered, clean)
    ensures var name := LoweredName(e); var clean := CleanName(name); var first := FirstWord(name);
      (name != "" && !Contains(lowered, name) && !(|clean| > 3 && Contains(lowered, clean)))
      ==> MatchIndex(lowered, e) == (if |first| >= 4 then IndexOf(lowered, first) else None)
  {
  }

  /** The mentions of `entities` in input order, one per mentioned entity. */
  function Mentions(lowered: string, entities: seq<Entity>): (r: seq<Mention>)
    ensures |r| <= |entities|
    ensures forall m :: m in r ==> m.entity in entities && MatchIndex(lowered, m.entity) == Some(m.index)
  {
    if entities == [] then []
    else
      var front := Mentions(lowered, entities[..|entities| - 1]);
      var e := entities[|entities| - 1];
      match MatchIndex(lowered, e)
      case Some(idx) => front + [Mention(e, idx)]
      case None => front
  }

  /** Every mentioned entity of the input has its mention collected. */
  lemma {:induction false} MentionsComplete(lowered: string, entities: seq<Entity>, e: Entity)
    requires e in entities && MatchIndex(lowered, e).Some?
    decreases |entities|
    ensures Mention(e, MatchIndex(lowered, e).value) in Mentions(lowered, entities)
  {
    var front := entities[..|entities| - 1];
    var last := entities[|entities| - 1];
    var rest := Mentions(lowered, front);
    assert Mentions(lowered, entities)
        == rest + (if MatchIndex(lowered, last).Some? then [Mention(last, MatchIndex(lowered, last).value)] else []);
    if e != last {
      assert e in front by {
        var i :| 0 <= i < |entities| && entities[i] == e;
        assert i != |entities| - 1;
        assert front[i] == entities[i];
      }
      MentionsComplete(lowered, front, e);
    }
  }

  function MentionKey(m: Mention): real {
    m.index as real
  }

  function EntitiesOf(ms: seq<Mention>): (r: seq<Entity>)
    ensures |r| == |ms| && forall i :: 0 <= i < |ms| ==> r[i] == ms[i].entity
  {
    seq(|ms|, i requires 0 <= i < |ms| => ms[i].entity)
  }

  function Min(a: int, b: int): int {
    if a <= b then a else b
  }

  /**
   * `filterEntitiesByPersonaText`: the input for an empty text; otherwise the mentioned
   * entities in order of first mention (ties in input order); otherwise the first five.
   */
  function FilteredByText(text: string, entities: seq<Entity>): (r: seq<Entity>)
    ensures text == "" ==> r == entities
    ensures text != "" && Mentions(Lower(text), entities) == [] ==> r == entities[..Min(5, |entities|)]
    ensures text != "" && Mentions(Lower(text), entities) != [] ==>
              r == EntitiesOf(SortBy(Mentions(Lower(text), entities), MentionKey))
  {
    if text == "" then entities
    else
      var matches := SortBy(Mentions(Lower(text), entities), MentionKey);
      if |matches| > 0 then EntitiesOf(matches) else entities[..Min(5, |entities|)]
  }

  /** Sorting the mentions keeps exactly the same mentions. */
  lemma SortedMentionsMembers(ms: seq<Mention>, m: Mention)
    ensures m in SortBy(ms, MentionKey) <==> m in ms
  {
    assert m in SortBy(ms, MentionKey) <==> m in multiset(SortBy(ms, MentionKey));
  }

  /** When anything is mentioned, the result has one entity per mention. */
  lemma FilteredByTextLength(text: string, entities: seq<Entity>)
    requires text != "" && Mentions(Lower(text), entities) != []
    ensures |FilteredByText(text, entities)| == |Mentions(Lower(text), entities)|
    ensures |FilteredByText(text, entities)| == |Matching(Lower(text), entities)|
  {
    MentionsEntities(Lower(text), entities);
  }

  /** When anything is mentioned, an entity is in the result iff it is in the input and the text mentions it. */
  lemma FilteredByTextMembers(text: string, entities: seq<Entity>, e: Entity)
    requires text != "" && Mentions(Lower(text), entities) != []
    ensures e in FilteredByText(text, entities) <==> e in entities && MatchIndex(Lower(text), e).Some?
  {
    var lowered := Lower(text);
    var ms := Mentions(lowered, entities);
    var sorted := SortBy(ms, MentionKey);
    var r := EntitiesOf(sorted);
    assert FilteredByText(text, entities) == r;
    if e in r {
      var i :| 0 <= i < |r| && r[i] == e;
      SortedMentionsMembers(ms, sorted[i]);
    }
    if e in entities && MatchIndex(lowered, e).Some? {
      var m := Mention(e, MatchIndex(lowered, e).value);
      MentionsComplete(lowered, entities, e);
      SortedMentionsMembers(ms, m);
      var i :| 0 <= i < |sorted| && sorted[i] == m;
      assert r[i] == e;
    }
  }

  /** The sorted mentions: the entities of the result, with where they are mentioned. */
  function SortedMentions(text: string, entities: seq<Entity>): seq<Mention> {
    SortBy(Mentions(Lower(text), entities), MentionKey)
  }

  /** The k-th result entity is mentioned where its sorted mention says. */
  lemma FilteredByTextIndex(text: string, entities: seq<Entity>, k: nat)
    requires text != "" && Mentions(Lower(text), entities) != []
    requires k < |FilteredByText(text, entities)|
    ensures k < |SortedMentions(text, entities)|
    ensures FilteredByText(text, entities)[k] == SortedMentions(text, entities)[k].entity
    ensures MatchIndex(Lower(text), FilteredByText(text, entities)[k]) == Some(SortedMentions(text, entities)[k].index)
  {
    SortedMentionsMembers(Mentions(Lower(text), entities), SortedMentions(text, entities)[k]);
  }

  /** When anything is mentioned, the result is ordered by where the text first mentions each entity. */
  lemma FilteredByTextOrder(text: string, entities: seq<Entity>, i: nat, j: nat)
    requires text != "" && Mentions(Lower(text), entities) != []
    requires i < j < |FilteredByText(text, entities)|
    ensures MatchIndex(Lower(text), FilteredByText(text, entities)[i]).Some?
    ensures MatchIndex(Lower(text), FilteredByText(text, entities)[j]).Some?
    ensures MatchIndex(Lower(text), FilteredByText(text, entities)[i]).value
            <= MatchIndex(Lower(text), FilteredByText(text, entities)[j]).value
  {
    FilteredByTextIndex(text, entities, i);
    FilteredByTextIndex(text, entities, j);
    SortBySorted(Mentions(Lower(text), entities), MentionKey);
    assert MentionKey(SortedMentions(text, entities)[i]) <= MentionKey(SortedMentions(text, entities)[j]);
  }

  /** With no mention, the result is the first five entities (all of them when there are fewer). */
  lemma FilteredByTextFallback(text: string, entities: seq<Entity>)
    requires text != "" && forall e :: e in entities ==> MatchIndex(Lower(text), e).None?
    ensures FilteredByText(text, entities) == entities[..Min(5, |entities|)]
    ensures |FilteredByText(text, entities)| == Min(5, |entities|)
  {
    var ms := Mentions(Lower(text), entities);
    EmptyWithoutMembers(ms);
    assert SortBy(ms, MentionKey) == [];
  }

  // ---------------------------------------------------------------- what the filter keeps

  /** Whether the text mentions the entity. */
  function IsMentioned(lowered: string): Entity -> bool {
    e => MatchIndex(lowered, e).Some?
  }

  /** Whether the text first mentions the entity at position `v`. */
  function IsMentionedAt(lowered: string, v: nat): Entity -> bool {
    e => MatchIndex(lowered, e) == Some(v)
  }

  /** The reference filter: the entities the text mentions, in input order. */
  function Matching(lowered: string, es: seq<Entity>): seq<Entity> {
    Filter(es, IsMentioned(lowered))
  }

  /** The entities of `es` that the text first mentions at position `v`, in their order in `es`. */
  function MentionedAt(lowered: string, es: seq<Entity>, v: nat): seq<Entity> {
    Filter(es, IsMentionedAt(lowered, v))
  }

  lemma EntitiesOfAppend(a: seq<Mention>, b: seq<Mention>)
    ensures EntitiesOf(a + b) == EntitiesOf(a) + EntitiesOf(b)
  {
  }

  lemma EntitiesOfCons(ms: seq<Mention>)
    requires ms != []
    ensures EntitiesOf(ms) == [ms[0].entity] + EntitiesOf(ms[1..])
  {
    SplitFirst(ms);
    EntitiesOfAppend([ms[0]], ms[1..]);
  }

  /** The collected mentions are one per mentioned entity, in input order. */
  lemma {:induction false} MentionsEntities(lowered: string, es: seq<Entity>)
    decreases |es|
    ensures EntitiesOf(Mentions(lowered, es)) == Matching(lowered, es)
  {
    if es != [] {
      var front := es[..|es| - 1];
      var e := es[|es| - 1];
      var ms := Mentions(lowered, front);
      var found := MatchIndex(lowered, e);
      var tail: seq<Mention> := if found.Some? then [Mention(e, found.value)] else [];
      assert Mentions(lowered, es) == ms + tail;
      EntitiesOfAppend(ms, tail);
      assert EntitiesOf(tail) == if IsMentioned(lowered)(e) then [e] else [];
      MentionsEntities(lowered, front);
      FilterSnoc(front, e, IsMentioned(lowered));
      SplitLast(es);
    }
  }

  lemma {:induction false} InsertEntities(x: Mention, s: seq<Mention>)
    decreases |s|
    ensures multiset(EntitiesOf(Insert(x, s, MentionKey))) == multiset(EntitiesOf(s)) + multiset{x.entity}
  {
    if s == [] || MentionKey(x) <= MentionKey(s[0]) {
      assert Insert(x, s, MentionKey) == [x] + s;
      EntitiesOfAppend([x], s);
      assert EntitiesOf([x]) == [x.entity];
      assert multiset([x.entity] + EntitiesOf(s)) == multiset{x.entity} + multiset(EntitiesOf(s));
    } else {
      var t := Insert(x, s[1..], MentionKey);
      assert Insert(x, s, MentionKey) == [s[0]] + t;
      InsertEntities(x, s[1..]);
      EntitiesOfAppend([s[0]], t);
      assert EntitiesOf([s[0]]) == [s[0].entity];
      assert multiset([s[0].entity] + EntitiesOf(t)) == multiset{s[0].entity} + multiset(EntitiesOf(t));
      EntitiesOfCons(s);
      assert multiset([s[0].entity] + EntitiesOf(s[1..])) == multiset{s[0].entity} + multiset(EntitiesOf(s[1..]));
    }
  }

  /** Sorting the mentions keeps the same entities, as often as before. */
  lemma {:induction false} SortEntities(ms: seq<Mention>)
    decreases |ms|
    ensures multiset(EntitiesOf(SortBy(ms, MentionKey))) == multiset(EntitiesOf(ms))
  {
    if ms != [] {
      SortEntities(ms[1..]);
      InsertEntities(ms[0], SortBy(ms[1..], MentionKey));
      EntitiesOfCons(ms);
    }
  }

  /**
   * When anything is mentioned, the result holds the same entities as the reference filter,
   * as often: with `MatchingCounts`, each mentioned entity as often as the input holds it
   * (once, for an input without repeats), and nothing else.
   */
  lemma FilteredByTextCounts(text: string, entities: seq<Entity>)
    requires text != "" && Mentions(Lower(text), entities) != []
    ensures multiset(FilteredByText(text, entities)) == multiset(Matching(Lower(text), entities))
  {
    var lowered := Lower(text);
    var ms := Mentions(lowered, entities);
    assert FilteredByText(text, entities) == EntitiesOf(SortBy(ms, MentionKey));
    SortEntities(ms);
    MentionsEntities(lowered, entities);
  }

  /** The reference filter keeps each mentioned entity as often as the input holds it, and nothing else. */
  lemma MatchingCounts(lowered: string, entities: seq<Entity>)
    ensures forall e :: multiset(Matching(lowered, entities))[e]
                        == if MatchIndex(lowered, e).Some? then multiset(entities)[e] else 0
  {
    FilterCounts(entities, IsMentioned(lowered));
  }

  /** Mentions at one position, taken in order, are the entities mentioned there, in order. */
  lemma WithKeyEntities(lowered: string, ms: seq<Mention>, v: nat)
    requires forall m :: m in ms ==> MatchIndex(lowered, m.entity) == Some(m.index)
    ensures EntitiesOf(WithKey(ms, MentionKey, v as real)) == MentionedAt(lowered, EntitiesOf(ms), v)
  {
    WithKeyFilter(ms, v, IsMentionedAt(lowered, v));
  }

  /** `WithKey` on mentions is `Filter` on their entities, for a test that holds exactly at index `v`. */
  lemma {:induction false} WithKeyFilter(ms: seq<Mention>, v: nat, at: Entity -> bool)
    requires forall m :: m in ms ==> (at(m.entity) <==> m.index == v)
    decreases |ms|
    ensures EntitiesOf(WithKey(ms, MentionKey, v as real)) == Filter(EntitiesOf(ms), at)
  {
    if ms != [] {
      var m := ms[0];
      var head: seq<Mention> := if MentionKey(m) == v as real then [m] else [];
      var rest := WithKey(ms[1..], MentionKey, v as real);
      assert m in ms;
      assert forall m' :: m' in ms[1..] ==> m' in ms;
      WithKeyFilter(ms[1..], v, at);
      assert WithKey(ms, MentionKey, v as real) == head + rest;
      EntitiesOfAppend(head, rest);
      EntitiesOfCons(ms);
      FilterCons(m.entity, EntitiesOf(ms[1..]), at);
    }
  }

  /**
   * When anything is mentioned, the result's entities mentioned at any one position are the
   * input's entities mentioned there, in input order: ties keep their input order.
   */
  lemma FilteredByTextStable(text: string, entities: seq<Entity>, v: nat)
    requires text != "" && Mentions(Lower(text), entities) != []
    ensures MentionedAt(Lower(text), FilteredByText(text, entities), v) == MentionedAt(Lower(text), entities, v)
  {
    var lowered := Lower(text);
    var ms := Mentions(lowered, entities);
    var sorted := SortBy(ms, MentionKey);
    assert FilteredByText(text, entities) == EntitiesOf(sorted);
    forall m | m in sorted ensures MatchIndex(lowered, m.entity) == Some(m.index) {
      SortedMentionsMembers(ms, m);
    }
    WithKeyEntities(lowered, sorted, v);
    SortByStable(ms, MentionKey, v as real);
    WithKeyEntities(lowered, ms, v);
    MentionsEntities(lowered, entities);
    FilterNarrower(entities, IsMentioned(lowered), IsMentionedAt(lowered, v));
  }

  /** The mention filter: collect the mentions, sort them by position, keep their entities. */
  method FilterEntitiesByPersonaText(text: string, entities: seq<Entity>) returns (result: seq<Entity>)
    ensures result == FilteredByText(text, entities)
  {
    if text == "" {
      return entities;
    }
    var lowered := Lower(text);
    var matches: seq<Mention> := [];
    for i := 0 to |entities|
      invariant matches == Mentions(lowered, entities[..i])
    {
      var entity := entities[i];
      assert entities[..i + 1][..i] == entities[..i];
      var idx := MatchIndex(lowered, entity);
      if idx.Some? {
        matches := matches + [Mention(entity, idx.value)];
      }
    }
    assert entities[..|entities|] == entities;
    var sorted := SortBy(matches, MentionKey);
    if |sorted| > 0 {
      return EntitiesOf(sorted);
    }
    return entities[..Min(5, |entities|)];
  }
}
