/**
 * The few JavaScript string operations the core relies on, with their ECMAScript meaning:
 * truthiness of a possibly-absent string, `trim` and the `\s` class, `toLowerCase`,
 * `indexOf`, `split(sep)[0]`, `join`, and integer-to-decimal / integer-to-hex printing.
 */
module Strings {
  import opened Wrappers
  import opened Seqs

  /** A string operand is truthy in JavaScript iff it is present and non-empty. */
  predicate Truthy(s: Option<string>) {
    s.Some? && s.value != ""
  }

  /** ECMAScript WhiteSpace and LineTerminator code points: what `trim` removes and `\s` matches. */
  predicate IsJsSpace(c: char) {
    || c == '\t' || c == '\n' || c == '\U{000B}' || c == '\U{000C}' || c == '\r' || c == ' '
    || c == '\U{00A0}' || c == '\U{1680}' || ('\U{2000}' <= c <= '\U{200A}')
    || c == '\U{2028}' || c == '\U{2029}' || c == '\U{202F}' || c == '\U{205F}'
    || c == '\U{3000}' || c == '\U{FEFF}'
  }

  function TrimStart(s: string): (r: string)
    ensures |r| <= |s| && r == s[|s| - |r|..]
    ensures forall i :: 0 <= i < |s| - |r| ==> IsJsSpace(s[i])
    ensures r != [] ==> !IsJsSpace(r[0])
  {
    if s != [] && IsJsSpace(s[0]) then TrimStart(s[1..]) else s
  }

  function TrimEnd(s: string): (r: string)
    ensures |r| <= |s| && r == s[..|r|]
    ensures forall i :: |r| <= i < |s| ==> IsJsSpace(s[i])
    ensures r != [] ==> !IsJsSpace(r[|r| - 1])
  {
    if s != [] && IsJsSpace(s[|s| - 1]) then TrimEnd(s[..|s| - 1]) else s
  }

  /** `s.trim()`: `s` without its leading and trailing white space. */
  function Trim(s: string): (r: string)
    ensures |r| <= |s|
    ensures r != [] ==> !IsJsSpace(r[0]) && !IsJsSpace(r[|r| - 1])
    ensures (forall i :: 0 <= i < |s| ==> IsJsSpace(s[i])) <==> r == []
  {
    TrimOfSpaces(s);
    TrimEnd(TrimStart(s))
  }

  lemma TrimOfSpaces(s: string)
    ensures var r := TrimEnd(TrimStart(s));
      (r != [] ==> !IsJsSpace(r[0])) && ((forall i :: 0 <= i < |s| ==> IsJsSpace(s[i])) <==> r == [])
  {
    var t := TrimStart(s);
    var r := TrimEnd(t);
    assert r != [] ==> r[0] == t[0];
    if r == [] {
      forall i | 0 <= i < |s| ensures IsJsSpace(s[i]) {
        if i >= |s| - |t| { assert s[i] == t[i - (|s| - |t|)]; }
      }
    } else {
      assert !IsJsSpace(s[|s| - |t|]);
    }
  }

  /**
   * `s.trim()` is the slice of `s` that starts where `TrimStart` leaves off: everything
   * before and after that slice is white space.
   */
  lemma TrimSlice(s: string)
    ensures var a := |s| - |TrimStart(s)|; var r := Trim(s);
      && a + |r| <= |s| && r == s[a..a + |r|]
      && (forall i :: 0 <= i < a ==> IsJsSpace(s[i]))
      && (forall i :: a + |r| <= i < |s| ==> IsJsSpace(s[i]))
  {
    var t := TrimStart(s);
    SpaceAfterPrefix(s, |s| - |t|, TrimEnd(t));
  }

  /** A prefix of the suffix `s[a..]` followed only by white space is a slice followed only by white space. */
  lemma SpaceAfterPrefix(s: string, a: nat, r: string)
    requires a <= |s| && |r| <= |s| - a && r == s[a..][..|r|]
    requires forall i :: |r| <= i < |s| - a ==> IsJsSpace(s[a..][i])
    ensures r == s[a..a + |r|]
    ensures forall i :: a + |r| <= i < |s| ==> IsJsSpace(s[i])
  {
    forall i | a + |r| <= i < |s| ensures IsJsSpace(s[i]) {
      assert s[i] == s[a..][i - a];
    }
  }

  /** Whether `s` consists of white space only (including the empty string). */
  predicate Blank(s: string) {
    Trim(s) == []
  }

  function LowerChar(c: char): char {
    if 'A' <= c <= 'Z' then (c as int + 32) as char else c
  }

  /** `s.toLowerCase()` restricted to the ASCII letters. */
  function Lower(s: string): (r: string)
    ensures |r| == |s|
    ensures forall i :: 0 <= i < |s| ==> r[i] == LowerChar(s[i])
  {
    seq(|s|, i requires 0 <= i < |s| => LowerChar(s[i]))
  }

  predicate OccursAt(s: string, sub: string, i: nat) {
    i + |sub| <= |s| && s[i..i + |sub|] == sub
  }

  function IndexFrom(s: string, sub: string, i: nat): (r: Option<nat>)
    requires i <= |s|
    decreases |s| - i
    ensures r.Some? ==> i <= r.value && OccursAt(s, sub, r.value)
    ensures r.Some? ==> forall j :: i <= j < r.value ==> !OccursAt(s, sub, j)
    ensures r.None? ==> forall j :: i <= j ==> !OccursAt(s, sub, j)
  {
    if i + |sub| > |s| then None
    else if s[i..i + |sub|] == sub then Some(i)
    else IndexFrom(s, sub, i + 1)
  }

  /** `s.indexOf(sub)`: the first position at which `sub` occurs, None for -1. */
  function IndexOf(s: string, sub: string): (r: Option<nat>)
    ensures r.Some? <==> exists j :: OccursAt(s, sub, j)
    ensures r.Some? ==> OccursAt(s, sub, r.value) && forall j: nat :: j < r.value ==> !OccursAt(s, sub, j)
  {
    IndexFrom(s, sub, 0)
  }

  predicate Contains(s: string, sub: string) {
    IndexOf(s, sub).Some?
  }

  /** A text lacking one of the characters of `sub` does not contain `sub`. */
  lemma AbsentCharNotContained(s: string, sub: string, c: char)
    requires c in sub && c !in s
    ensures !Contains(s, sub)
  {
  }

  /** `s.split(sep)[0]`: the part of `s` before the first occurrence of `sep`. */
  function BeforeFirst(s: string, sep: string): (r: string)
    requires sep != ""
    ensures |r| <= |s| && r == s[..|r|]
    ensures !Contains(r, sep) || r == s
    ensures IndexOf(s, sep).Some? ==> r == s[..IndexOf(s, sep).value]
    ensures IndexOf(s, sep).None? ==> r == s
  {
    match IndexOf(s, sep)
    case Some(i) =>
      assert forall j: nat :: OccursAt(s[..i], sep, j) ==> OccursAt(s, sep, j) by {
        forall j: nat | OccursAt(s[..i], sep, j) ensures OccursAt(s, sep, j) {
          assert s[..i][j..j + |sep|] == s[j..j + |sep|];
        }
      }
      s[..i]
    case None => s
  }

  /** `parts.join(sep)`. */
  function Join(parts: seq<string>, sep: string): string {
    if |parts| == 0 then ""
    else if |parts| == 1 then parts[0]
    else parts[0] + sep + Join(parts[1..], sep)
  }

  /** `s.split(c)` for a one-character separator: the pieces between the separators, in order. */
  function Split(s: string, c: char): (r: seq<string>)
    ensures |r| >= 1
  {
    if s == [] then [""]
    else
      var rest := Split(s[1..], c);
      if s[0] == c then [""] + rest else [[s[0]] + rest[0]] + rest[1..]
  }

  /** Splitting at one separator splits the two sides independently. */
  lemma {:induction false} SplitAppend(a: string, c: char, t: string)
    ensures Split(a + [c] + t, c) == Split(a, c) + Split(t, c)
  {
    if a == [] {
      assert a + [c] + t == [c] + t;
      SplitHead(c, t, c);
    } else {
      var tail := a[1..] + [c] + t;
      SplitAppend(a[1..], c, t);
      assert a + [c] + t == [a[0]] + tail;
      assert a == [a[0]] + a[1..];
      SplitHead(a[0], tail, c);
      SplitHead(a[0], a[1..], c);
      FieldsAppend(a[0], c, Split(a[1..], c), Split(t, c));
    }
  }

  /** Adding a character in front of split fields commutes with appending further fields. */
  lemma FieldsAppend(x: char, c: char, front: seq<string>, last: seq<string>)
    requires |front| >= 1
    ensures var all := front + last;
      (if x == c then [""] + all else [[x] + all[0]] + all[1..])
      == (if x == c then [""] + front else [[x] + front[0]] + front[1..]) + last
  {
    var all := front + last;
    if x == c {
      AppendAssociates([""], front, last);
    } else {
      assert all[0] == front[0] && all[1..] == front[1..] + last;
      AppendAssociates([[x] + front[0]], front[1..], last);
    }
  }

  /** Splitting a string that starts with `x`: a separator opens a new field, anything else joins the first. */
  lemma SplitHead(x: char, s: string, c: char)
    ensures Split([x] + s, c)
            == if x == c then [""] + Split(s, c) else [[x] + Split(s, c)[0]] + Split(s, c)[1..]
  {
    assert ([x] + s)[0] == x && ([x] + s)[1..] == s;
  }

  /** A text without the separator is a single piece. */
  lemma {:induction false} SplitWhole(a: string, c: char)
    requires c !in a
    ensures Split(a, c) == [a]
  {
    if a != [] {
      SplitWhole(a[1..], c);
      assert [a[0]] + a[1..] == a;
    }
  }

  /**
   * Splitting a join gives the pieces of the first part followed by the other parts, when
   * the separator occurs in none of the other parts.
   */
  lemma {:induction false} SplitJoin(parts: seq<string>, c: char)
    requires |parts| >= 1
    requires forall i :: 1 <= i < |parts| ==> c !in parts[i]
    ensures Split(Join(parts, [c]), c) == Split(parts[0], c) + parts[1..]
  {
    if |parts| > 1 {
      var rest := parts[1..];
      SplitJoin(rest, c);
      SplitWhole(parts[1], c);
      SplitAppend(parts[0], c, Join(rest, [c]));
      assert [parts[1]] + parts[2..] == rest;
    }
  }

  /** With two parts or more, the first part is followed by the separator. */
  lemma JoinFirst(parts: seq<string>, sep: string)
    requires |parts| >= 2
    ensures |parts[0] + sep| <= |Join(parts, sep)| && Join(parts, sep)[..|parts[0] + sep|] == parts[0] + sep
  {
  }

  /** With two parts or more, the last part is preceded by the separator. */
  lemma {:induction false} JoinLast(parts: seq<string>, sep: string)
    requires |parts| >= 2
    ensures Join(parts, sep) == Join(parts[..|parts| - 1], sep) + sep + parts[|parts| - 1]
  {
    if |parts| == 2 {
      assert parts[..1] == [parts[0]];
    } else {
      var rest := parts[1..];
      JoinLast(rest, sep);
      assert rest[..|rest| - 1] == parts[..|parts| - 1][1..];
    }
  }

  /** With two parts or more, the joined text ends with the separator and the last part. */
  lemma JoinSuffix(parts: seq<string>, sep: string)
    requires |parts| >= 2
    ensures var j := Join(parts, sep); var tail := sep + parts[|parts| - 1];
      |tail| <= |j| && j[|j| - |tail|..] == tail
  {
    JoinLast(parts, sep);
    var front := Join(parts[..|parts| - 1], sep);
    var tail := sep + parts[|parts| - 1];
    assert Join(parts, sep) == front + tail;
  }

  /** `s.padStart(width, fill)` with a one-character fill. */
  function PadStart(s: string, width: nat, fill: char): (r: string)
    ensures |s| >= width ==> r == s
    ensures |s| < width ==> |r| == width && r[width - |s|..] == s && forall i :: 0 <= i < width - |s| ==> r[i] == fill
  {
    if |s| >= width then s else seq(width - |s|, _ => fill) + s
  }

  predicate IsDigit(c: char) {
    '0' <= c <= '9'
  }

  function DigitChar(d: nat): char
    requires d < 10
  {
    ('0' as int + d) as char
  }

  /** Decimal digits of `n`, without leading zeros ("0" for zero). */
  function NatToString(n: nat): (r: string)
    ensures |r| >= 1 && forall i :: 0 <= i < |r| ==> IsDigit(r[i])
  {
    if n < 10 then [DigitChar(n)] else NatToString(n / 10) + [DigitChar(n % 10)]
  }

  /** `String(n)` for an integral number. */
  function IntToString(n: int): string {
    if n < 0 then "-" + NatToString(-n) else NatToString(n)
  }

  predicate IsLowerHexDigit(c: char) {
    ('0' <= c <= '9') || ('a' <= c <= 'f')
  }

  function HexDigitChar(d: nat): (c: char)
    requires d < 16
    ensures IsLowerHexDigit(c)
  {
    if d < 10 then ('0' as int + d) as char else ('a' as int + d - 10) as char
  }

  /** `n.toString(16)`: lower-case hex digits without leading zeros ("0" for zero). */
  function ToHex(n: nat): (r: string)
    ensures |r| >= 1 && forall i :: 0 <= i < |r| ==> IsLowerHexDigit(r[i])
    ensures n > 0 ==> r[0] != '0'
  {
    if n < 16 then [HexDigitChar(n)] else ToHex(n / 16) + [HexDigitChar(n % 16)]
  }

  function Pow16(k: nat): (p: nat)
    ensures p >= 1
  {
    if k == 0 then 1 else 16 * Pow16(k - 1)
  }

  /** A number below 16^k prints in at most k hex digits. */
  lemma {:induction false} ToHexLength(n: nat, k: nat)
    requires k >= 1 && n < Pow16(k)
    ensures |ToHex(n)| <= k
  {
    if n >= 16 {
      assert k >= 2;
      assert n / 16 < Pow16(k - 1);
      ToHexLength(n / 16, k - 1);
    }
  }

  // ---------------------------------------------------------------- reading hex

  predicate IsHexDigit(c: char) {
    ('0' <= c <= '9') || ('a' <= c <= 'f') || ('A' <= c <= 'F')
  }

  function HexDigitValue(c: char): (v: nat)
    requires IsHexDigit(c)
    ensures v < 16
  {
    if '0' <= c <= '9' then c as int - '0' as int
    else if 'a' <= c <= 'f' then c as int - 'a' as int + 10
    else c as int - 'A' as int + 10
  }

  /** Printing a digit and reading it back gives the digit. */
  lemma HexDigitRoundTrip(d: nat)
    requires d < 16
    ensures IsHexDigit(HexDigitChar(d)) && HexDigitValue(HexDigitChar(d)) == d
  {
  }

  predicate AllHex(s: string) {
    forall i :: 0 <= i < |s| ==> IsHexDigit(s[i])
  }

  /** The value of a string of hex digits, most significant digit first. */
  function HexValue(s: string): (v: nat)
    requires AllHex(s)
    ensures v < Pow16(|s|)
  {
    if s == [] then 0
    else
      var front := HexValue(s[..|s| - 1]);
      assert front <= Pow16(|s| - 1) - 1;
      front * 16 + HexDigitValue(s[|s| - 1])
  }

  /** Reading `a + b` is reading `a`, shifted by the digits of `b`, plus reading `b`. */
  lemma {:induction false} HexValueConcat(a: string, b: string)
    requires AllHex(a) && AllHex(b)
    ensures AllHex(a + b) && HexValue(a + b) == HexValue(a) * Pow16(|b|) + HexValue(b)
  {
    var ab := a + b;
    assert AllHex(ab) by {
      forall i | 0 <= i < |ab| ensures IsHexDigit(ab[i]) {
        if i >= |a| { assert ab[i] == b[i - |a|]; }
      }
    }
    if b != [] {
      var b' := b[..|b| - 1];
      var d := HexDigitValue(b[|b| - 1]);
      assert ab[..|ab| - 1] == a + b';
      assert HexValue(ab) == HexValue(a + b') * 16 + d;
      HexValueConcat(a, b');
      assert Pow16(|b|) == Pow16(|b'|) * 16;
      assert HexValue(b) == HexValue(b') * 16 + d;
      ShiftDigit(HexValue(a), Pow16(|b'|), HexValue(b'), d);
    } else {
      assert ab == a;
    }
  }

  lemma ShiftDigit(h: int, p: int, v: int, d: int)
    ensures (h * p + v) * 16 + d == h * (p * 16) + (v * 16 + d)
  {
  }

  /** `parseInt(n.toString(16), 16) == n`: reading the printed digits gives the number back. */
  lemma {:induction false} ToHexValue(n: nat)
    decreases n
    ensures AllHex(ToHex(n)) && HexValue(ToHex(n)) == n
  {
    var r := ToHex(n);
    assert AllHex(r);
    if n < 16 {
      HexDigitRoundTrip(n);
      assert r[..0] == [];
    } else {
      var front := ToHex(n / 16);
      assert r == front + [HexDigitChar(n % 16)];
      assert r[..|r| - 1] == front;
      ToHexValue(n / 16);
      HexDigitRoundTrip(n % 16);
      assert HexValue(r) == HexValue(front) * 16 + n % 16;
    }
  }
}
