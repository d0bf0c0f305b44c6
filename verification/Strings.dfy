/** The operations of Go's `strings` and `strconv` packages that the operator relies on. */
module Strings {

  /** Position of the first `c` in `s`, or `|s|` when there is none. */
  function Find(s: string, c: char): (k: nat)
    ensures k <= |s| && c !in s[..k]
    ensures k < |s| ==> s[k] == c
  {
    if s == [] || s[0] == c then 0 else Find(s[1..], c) + 1
  }

  function Split(s: string, sep: char): (parts: seq<string>)
    ensures |parts| > 0
  {
    var k := Find(s, sep);
    if k == |s| then [s] else [s[..k]] + Split(s[k + 1..], sep)
  }

  function Join(parts: seq<string>, sep: char): string
    requires |parts| > 0
  {
    if |parts| == 1 then parts[0] else parts[0] + [sep] + Join(parts[1..], sep)
  }

  lemma FindUnique(s: string, c: char, k: nat)
    requires k <= |s| && c !in s[..k] && (k == |s| || s[k] == c)
    ensures Find(s, c) == k
  {
    assert k > 0 ==> s[0] in s[..k];
    if s != [] && s[0] != c {
      assert s[1..][..k - 1] == s[..k][1..];
      FindUnique(s[1..], c, k - 1);
    }
  }

  lemma {:induction false} FindAtMost(s: string, c: char, i: nat)
    requires i < |s| && s[i] == c
    ensures Find(s, c) <= i
  {
    if s[0] != c {
      FindAtMost(s[1..], c, i - 1);
    }
  }

  lemma SplitFirst(part: string, rest: string, sep: char)
    requires sep !in part
    ensures Split(part + [sep] + rest, sep) == [part] + Split(rest, sep)
  {
    var s := part + [sep] + rest;
    assert s[..|part|] == part && s[|part| + 1..] == rest;
    FindUnique(s, sep, |part|);
  }

  /** `Split` and `Join` are inverse on separator-free parts. */
  lemma {:induction false} SplitJoin(parts: seq<string>, sep: char)
    requires |parts| > 0 && forall i | 0 <= i < |parts| :: sep !in parts[i]
    ensures Split(Join(parts, sep), sep) == parts
  {
    if |parts| == 1 {
      FindUnique(parts[0], sep, |parts[0]|);
    } else {
      var rest := Join(parts[1..], sep);
      SplitJoin(parts[1..], sep);
      SplitFirst(parts[0], rest, sep);
      assert parts == [parts[0]] + parts[1..];
    }
  }

  lemma {:induction false} JoinSplit(s: string, sep: char)
    ensures Join(Split(s, sep), sep) == s
    ensures forall i | 0 <= i < |Split(s, sep)| :: sep !in Split(s, sep)[i]
    decreases |s|
  {
    var k := Find(s, sep);
    if k == |s| {
      assert s[..k] == s;
    } else {
      JoinSplit(s[k + 1..], sep);
      assert s == s[..k] + [sep] + s[k + 1..];
    }
  }

  predicate HasSuffix(s: string, suffix: string) {
    |suffix| <= |s| && s[|s| - |suffix|..] == suffix
  }

  predicate OccursAt(s: string, t: string, i: int) {
    0 <= i <= |s| - |t| && s[i..i + |t|] == t
  }

  predicate Contains(s: string, t: string) {
    exists i | 0 <= i <= |s| - |t| :: OccursAt(s, t, i)
  }

  /** Go compares strings byte by byte. */
  predicate Less(a: string, b: string) {
    |b| > 0 && (|a| == 0 || a[0] < b[0] || (a[0] == b[0] && Less(a[1..], b[1..])))
  }

  lemma {:induction false} LessTransitive(a: string, b: string, c: string)
    requires Less(a, b) && Less(b, c)
    ensures Less(a, c)
  {
    if |a| > 0 && a[0] == b[0] == c[0] {
      LessTransitive(a[1..], b[1..], c[1..]);
    }
  }

  lemma {:induction false} LessTotal(a: string, b: string)
    ensures a == b || Less(a, b) || Less(b, a)
    ensures !(Less(a, b) && Less(b, a)) && !Less(a, a)
  {
    if |a| > 0 && |b| > 0 && a[0] == b[0] {
      LessTotal(a[1..], b[1..]);
      assert a == [a[0]] + a[1..] && b == [b[0]] + b[1..];
    }
    if |a| > 0 {
      LessTotal(a[1..], a[1..]);
    }
  }

  predicate IsDigit(c: char) {
    '0' <= c <= '9'
  }

  predicate AllDigits(s: string) {
    forall i | 0 <= i < |s| :: IsDigit(s[i])
  }

  function Pow10(n: nat): nat {
    if n == 0 then 1 else 10 * Pow10(n - 1)
  }

  function Digit(c: char): (d: nat)
    requires IsDigit(c)
    ensures d <= 9
  {
    c as int - '0' as int
  }

  /** The number a digit string denotes. */
  function Value(s: string): nat
    requires AllDigits(s)
  {
    if s == [] then 0 else Digit(s[0]) * Pow10(|s| - 1) + Value(s[1..])
  }

  const MAX_INT := 9223372036854775807

  function Clamp(negative: bool, n: int): int {
    if negative then (if n > MAX_INT + 1 then -MAX_INT - 1 else -n)
    else if n > MAX_INT then MAX_INT else n
  }

  /** `n, _ := strconv.Atoi(s)`: a syntax error yields 0, a range error the nearest 64-bit bound. */
  function Atoi(s: string): int {
    var signed := |s| > 0 && (s[0] == '-' || s[0] == '+');
    var digits := if signed then s[1..] else s;
    if digits == [] || !AllDigits(digits) then 0 else Clamp(signed && s[0] == '-', Value(digits))
  }

  /** A decimal count as the cloud prints it: no sign, no leading zero, within the width of `int`. */
  predicate IsCount(s: string) {
    0 < |s| <= 18 && AllDigits(s) && s[0] != '0'
  }

  lemma ScaleBound(d: nat, p: nat)
    requires d <= 9
    ensures d * p <= 9 * p
    ensures d > 0 ==> p <= d * p
  {
  }

  lemma {:induction false} ValueBound(s: string)
    requires AllDigits(s)
    ensures Value(s) < Pow10(|s|)
    ensures s != [] && s[0] != '0' ==> Pow10(|s| - 1) <= Value(s)
  {
    if s != [] {
      assert AllDigits(s[1..]);
      ValueBound(s[1..]);
      ScaleBound(Digit(s[0]), Pow10(|s| - 1));
      assert s[0] != '0' ==> Digit(s[0]) > 0;
    }
  }

  lemma {:induction false} Pow10Monotone(m: nat, n: nat)
    requires m <= n
    ensures Pow10(m) <= Pow10(n)
  {
    if m < n {
      Pow10Monotone(m, n - 1);
    }
  }

  lemma AtoiCount(s: string)
    requires IsCount(s)
    ensures Atoi(s) == Value(s) > 0
  {
    ValueBound(s);
    Pow10Monotone(|s|, 18);
    Pow10Monotone(0, |s| - 1);
    assert Pow10(18) == 1000000000000000000 by {
      assert Pow10(6) == 1000000;
      assert Pow10(12) == 1000000000000;
    }
  }

  lemma LeadingDigitDecides(x: nat, y: nat, p: nat, u: nat, v: nat)
    requires u < p && v < p
    ensures x * p + u < y * p + v <==> x < y || (x == y && u < v)
  {
    if x < y {
      assert (x + 1) * p <= y * p;
    } else if y < x {
      assert (y + 1) * p <= x * p;
    }
  }

  /** On digit strings of one length the two orders are the same. */
  lemma {:induction false} SameLengthOrder(a: string, b: string)
    requires AllDigits(a) && AllDigits(b) && |a| == |b|
    ensures Less(a, b) <==> Value(a) < Value(b)
  {
    if a != [] {
      assert AllDigits(a[1..]) && AllDigits(b[1..]);
      SameLengthOrder(a[1..], b[1..]);
      ValueBound(a[1..]);
      ValueBound(b[1..]);
      LeadingDigitDecides(Digit(a[0]), Digit(b[0]), Pow10(|a| - 1), Value(a[1..]), Value(b[1..]));
    }
  }

  /** The shorter of two numerals does not exceed the leading digits of the longer. */
  predicate LeadingDigitsDominate(short: string, long: string)
    requires |short| <= |long| && AllDigits(short) && AllDigits(long)
  {
    Value(short) <= Value(long[..|short|])
  }

  lemma {:induction false} PrefixOrder(short: string, long: string)
    requires |short| < |long|
    ensures Less(short, long) <==> !Less(long[..|short|], short)
  {
    if short != [] {
      PrefixOrder(short[1..], long[1..]);
      assert long[1..][..|short| - 1] == long[..|short|][1..];
    }
  }

  /** A shorter count is the smaller number; it is also the smaller string exactly when it does
      not exceed the leading digits of the longer one. */
  lemma ShorterCount(short: string, long: string)
    requires IsCount(short) && IsCount(long) && |short| < |long|
    ensures Atoi(short) < Atoi(long)
    ensures Less(short, long) <==> LeadingDigitsDominate(short, long)
    ensures Less(long, short) <==> !LeadingDigitsDominate(short, long)
  {
    AtoiCount(short);
    AtoiCount(long);
    PrefixOrder(short, long);
    SameLengthOrder(long[..|short|], short);
    LessTotal(short, long);
    ValueBound(short);
    ValueBound(long);
    Pow10Monotone(|short|, |long| - 1);
  }

  /** The pair is ordered alike as strings and as numbers. */
  predicate Agree(a: string, b: string)
    requires AllDigits(a) && AllDigits(b)
  {
    |a| == |b| ||
    if |a| < |b| then LeadingDigitsDominate(a, b) else LeadingDigitsDominate(b, a)
  }

  /** When the string comparison of a count with another, or with the initial "0", gives the numeric answer. */
  lemma CountOrder(a: string, b: string)
    requires (IsCount(a) || a == "0") && IsCount(b)
    ensures (Less(a, b) <==> Atoi(a) < Atoi(b)) <==> Agree(a, b)
    ensures a == "0" ==> Less(a, b) && Agree(a, b)
  {
    AtoiCount(b);
    if a == "0" {
      assert a[1..] == [] && Value(a) == 0;
      assert |b| > 1 ==> LeadingDigitsDominate(a, b);
    } else if |a| == |b| {
      AtoiCount(a);
      SameLengthOrder(a, b);
    } else if |a| < |b| {
      ShorterCount(a, b);
    } else {
      ShorterCount(b, a);
    }
  }

  /** Different counts denote different numbers. */
  lemma CountInjective(a: string, b: string)
    requires IsCount(a) && IsCount(b) && Atoi(a) == Atoi(b)
    ensures a == b
  {
    AtoiCount(a);
    AtoiCount(b);
    if |a| < |b| {
      ShorterCount(a, b);
    } else if |b| < |a| {
      ShorterCount(b, a);
    } else {
      SameLengthOrder(a, b);
      SameLengthOrder(b, a);
      LessTotal(a, b);
    }
  }

  /** No digit string comes before "0". */
  lemma NothingBelowZero(a: string)
    requires AllDigits(a) && a != []
    ensures !Less(a, "0")
  {
  }
}
