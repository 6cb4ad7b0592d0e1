/** String operations the translation pipeline relies on: Python's substring
    test `sub in s`, `sep.join(units)`, and the decimal rendering of a counter
    inside an f-string. */
module Text {

  datatype Option<T> = None | Some(value: T)

  /** `sub` occurs in `s` starting at index `i`. */
  ghost predicate OccursAt(sub: string, s: string, i: int) {
    0 <= i && i + |sub| <= |s| && s[i..i + |sub|] == sub
  }

  /** Python's `sub in s`: scan `s` from the left for a copy of `sub`. */
  function Contains(s: string, sub: string): bool
    decreases |s|
  {
    if |s| < |sub| then false
    else s[..|sub|] == sub || Contains(s[1..], sub)
  }

  /** The scan finds `sub` exactly when `sub` occurs somewhere in `s`. */
  lemma {:induction false} ContainsCorrect(s: string, sub: string)
    ensures Contains(s, sub) <==> exists i :: OccursAt(sub, s, i)
    decreases |s|
  {
    if |s| < |sub| {
      assert forall i :: !OccursAt(sub, s, i);
    } else if s[..|sub|] == sub {
      assert OccursAt(sub, s, 0);
    } else {
      ContainsCorrect(s[1..], sub);
      assert Contains(s, sub) == Contains(s[1..], sub);
      if Contains(s, sub) {
        var i :| OccursAt(sub, s[1..], i);
        OccursShifted(s, sub, i);
      }
      if exists i :: OccursAt(sub, s, i) {
        var i :| OccursAt(sub, s, i);
        assert i != 0;
        OccursShifted(s, sub, i - 1);
      }
    }
  }

  /** An occurrence in the tail of `s` is an occurrence in `s` one index on. */
  lemma OccursShifted(s: string, sub: string, i: int)
    requires s != [] && 0 <= i
    ensures OccursAt(sub, s[1..], i) <==> OccursAt(sub, s, i + 1)
  {
    if 0 <= i && i + 1 + |sub| <= |s| {
      assert s[1..][i..i + |sub|] == s[i + 1..i + 1 + |sub|];
    }
  }

  /** Python's `sep.join(units)`. */
  function Join(units: seq<string>, sep: string): string
    decreases |units|
  {
    if |units| == 0 then ""
    else if |units| == 1 then units[0]
    else Join(units[..|units| - 1], sep) + sep + units[|units| - 1]
  }

  /** Each unit followed by `sep`, as `acc += unit + sep` builds it. */
  function Suffixed(units: seq<string>, sep: string): string
    decreases |units|
  {
    if |units| == 0 then ""
    else Suffixed(units[..|units| - 1], sep) + (units[|units| - 1] + sep)
  }

  /** Joining two non-empty runs of units puts one separator between them. */
  lemma {:induction false} JoinAppend(a: seq<string>, b: seq<string>, sep: string)
    requires a != [] && b != []
    ensures Join(a + b, sep) == Join(a, sep) + sep + Join(b, sep)
    decreases |b|
  {
    var ab := a + b;
    assert ab[..|ab| - 1] == a + b[..|b| - 1];
    if |b| == 1 {
      assert ab[..|ab| - 1] == a;
    } else {
      JoinAppend(a, b[..|b| - 1], sep);
    }
  }

  /** Unit `i` stands in the joined text between the join of the units before
      it and the join of the units after it, so the order is the input order. */
  lemma JoinAround(units: seq<string>, i: nat, sep: string)
    requires i < |units|
    ensures Join(units, sep) ==
            Join(units[..i], sep) + (if i == 0 then "" else sep) + units[i] +
            (if i == |units| - 1 then "" else sep + Join(units[i + 1..], sep))
  {
    var upTo := units[..i + 1];
    assert upTo[..i] == units[..i];
    assert Join(upTo, sep) == Join(units[..i], sep) + (if i == 0 then "" else sep) + units[i];
    if i < |units| - 1 {
      assert units == upTo + units[i + 1..];
      JoinAppend(upTo, units[i + 1..], sep);
    } else {
      assert units == upTo;
    }
  }

  /** The join of the first `m` units is a prefix of the join of all of them. */
  lemma JoinPrefix(units: seq<string>, m: nat, sep: string)
    requires m <= |units|
    ensures Join(units[..m], sep) <= Join(units, sep)
  {
    if 0 < m < |units| {
      assert units == units[..m] + units[m..];
      JoinAppend(units[..m], units[m..], sep);
    } else if m == |units| {
      assert units[..m] == units;
    }
  }

  /** Terminating every unit with `sep` is the join followed by one `sep`. */
  lemma {:induction false} SuffixedIsJoin(units: seq<string>, sep: string)
    requires units != []
    ensures Suffixed(units, sep) == Join(units, sep) + sep
    decreases |units|
  {
    if |units| > 1 {
      SuffixedIsJoin(units[..|units| - 1], sep);
    }
  }

  function DigitChar(d: nat): char
    requires d < 10
  {
    ('0' as int + d) as char
  }

  /** Every character of `s` is a decimal digit. */
  ghost predicate IsDigits(s: string) {
    forall k :: 0 <= k < |s| ==> '0' <= s[k] <= '9'
  }

  /** `str(n)` for a non-negative integer. */
  function Decimal(n: nat): (s: string)
    ensures |s| > 0 && IsDigits(s)
  {
    if n < 10 then [DigitChar(n)] else Decimal(n / 10) + [DigitChar(n % 10)]
  }

  /** The number a string of decimal digits denotes. */
  function DecimalValue(s: string): nat
    requires IsDigits(s)
    decreases |s|
  {
    if s == [] then 0
    else DecimalValue(s[..|s| - 1]) * 10 + (s[|s| - 1] as int - '0' as int)
  }

  /** Length of the run of decimal digits that opens `s`. */
  function LeadingDigits(s: string): nat
    decreases |s|
  {
    if s != [] && '0' <= s[0] <= '9' then 1 + LeadingDigits(s[1..]) else 0
  }

  /** Digits followed by text that opens with a non-digit: the digit run is
      exactly the digits. */
  lemma {:induction false} LeadingDigitsOf(d: string, rest: string)
    requires IsDigits(d) && rest != [] && !('0' <= rest[0] <= '9')
    ensures LeadingDigits(d + rest) == |d|
    decreases |d|
  {
    if d == [] {
      assert d + rest == rest;
    } else {
      assert (d + rest)[1..] == d[1..] + rest;
      LeadingDigitsOf(d[1..], rest);
    }
  }

  /** A number rendered in front of text that opens with a non-digit can be
      split back off: equal texts of that shape have equal parts. */
  lemma DigitsSplit(d1: string, r1: string, d2: string, r2: string)
    requires IsDigits(d1) && r1 != [] && !('0' <= r1[0] <= '9')
    requires IsDigits(d2) && r2 != [] && !('0' <= r2[0] <= '9')
    requires d1 + r1 == d2 + r2
    ensures d1 == d2 && r1 == r2
  {
    LeadingDigitsOf(d1, r1);
    LeadingDigitsOf(d2, r2);
    var s := d1 + r1;
    assert d1 == s[..|d1|] && r1 == s[|d1|..];
    assert d2 == s[..|d2|] && r2 == s[|d2|..];
  }

  /** Rendering a counter in decimal loses nothing. */
  lemma {:induction false} DecimalRoundTrip(n: nat)
    ensures DecimalValue(Decimal(n)) == n
  {
    if n >= 10 {
      DecimalRoundTrip(n / 10);
      var s := Decimal(n);
      assert s[..|s| - 1] == Decimal(n / 10);
    }
  }
}
