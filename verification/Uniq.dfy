/** `uniq.Slice(s, less)`: sort in place, move one element per key to the front, return how many.
    The library is not part of the repository; this is what the flavour search assumes of it. */
module Uniq {

  predicate Sorted<T>(s: seq<T>, key: T -> int) {
    forall i, j | 0 <= i < j < |s| :: key(s[i]) <= key(s[j])
  }

  predicate Ascending<T>(s: seq<T>, key: T -> int) {
    forall i, j | 0 <= i < j < |s| :: key(s[i]) < key(s[j])
  }

  ghost predicate KeyIn<T>(k: int, s: seq<T>, key: T -> int) {
    exists i | 0 <= i < |s| :: key(s[i]) == k
  }

  /** The kept elements carry every key of the input, once each and in order. */
  ghost predicate Distilled<T>(input: seq<T>, kept: seq<T>, key: T -> int) {
    && Ascending(kept, key)
    && (forall x | x in kept :: x in input)
    && (forall x | x in input :: KeyIn(key(x), kept, key))
  }

  function Swapped<T>(s: seq<T>, i: nat, j: nat): seq<T>
    requires i < |s| && j < |s|
  {
    s[i := s[j]][j := s[i]]
  }

  method Swap<T>(a: array<T>, i: nat, j: nat)
    requires i < a.Length && j < a.Length
    modifies a
    ensures a[..] == Swapped(old(a[..]), i, j)
    ensures multiset(a[..]) == multiset(old(a[..]))
  {
    a[i], a[j] := a[j], a[i];
  }

  method Sort<T>(a: array<T>, key: T -> int)
    modifies a
    ensures Sorted(a[..], key) && multiset(a[..]) == multiset(old(a[..]))
  {
    for i := 0 to a.Length
      invariant Sorted(a[..i], key)
      invariant multiset(a[..]) == multiset(old(a[..]))
    {
      var j := i;
      while j > 0 && key(a[j]) < key(a[j - 1])
        invariant j <= i
        invariant forall p, q | 0 <= p < q <= i && q != j :: key(a[p]) <= key(a[q])
        invariant multiset(a[..]) == multiset(old(a[..]))
      {
        Swap(a, j - 1, j);
        j := j - 1;
      }
    }
    assert a[..] == a[..a.Length];
  }

  /** Reading position `r`, `n` elements kept: `now` is `s` rearranged, with `s[..r]` distilled into `now[..n]`. */
  ghost predicate Partly<T>(s: seq<T>, now: seq<T>, r: nat, n: nat, key: T -> int) {
    && n <= r <= |s| == |now| && (n == 0 <==> r == 0)
    && multiset(now) == multiset(s)
    && now[r..] == s[r..]
    && Distilled(s[..r], now[..n], key)
    && (n > 0 ==> key(now[n - 1]) == key(s[r - 1]))
  }

  /** Drop the next element when it repeats the last key, keep it otherwise. */
  lemma PartlyStep<T>(s: seq<T>, now: seq<T>, r: nat, n: nat, key: T -> int)
    requires Partly(s, now, r, n, key) && Sorted(s, key) && r < |s|
    ensures if n == 0 || key(now[n - 1]) < key(now[r])
            then Partly(s, Swapped(now, n, r), r + 1, n + 1, key)
            else Partly(s, now, r + 1, n, key)
  {
    var x := s[r];
    assert now[r] == now[r..][0] == x;
    assert n > 0 ==> key(s[r - 1]) <= key(x);
    assert s[..r + 1] == s[..r] + [x];
    DistilledStep(s[..r], now[..n], x, key);
    if n == 0 || key(now[n - 1]) < key(x) {
      var next := Swapped(now, n, r);
      assert next[..n + 1] == now[..n] + [x];
      assert next[r + 1..] == now[r..][1..] == s[r + 1..];
    } else {
      assert now[..n][n - 1] == now[n - 1];
      assert now[r + 1..] == now[r..][1..] == s[r + 1..];
    }
  }

  lemma DistilledStep<T>(seen: seq<T>, kept: seq<T>, x: T, key: T -> int)
    requires Distilled(seen, kept, key)
    ensures kept == [] || key(kept[|kept| - 1]) < key(x) ==> Distilled(seen + [x], kept + [x], key)
    ensures kept != [] && key(kept[|kept| - 1]) == key(x) ==> Distilled(seen + [x], kept, key)
  {
    var more := kept + [x];
    assert more[|kept|] == x;
    forall y | y in seen
      ensures KeyIn(key(y), more, key)
    {
      var i :| 0 <= i < |kept| && key(kept[i]) == key(y);
      assert more[i] == kept[i];
    }
  }

  /** On sorted input, gathers the first element of every run of equal keys at the front. */
  method Compact<T>(a: array<T>, key: T -> int) returns (n: nat)
    requires Sorted(a[..], key)
    modifies a
    ensures n <= a.Length && (n == 0 <==> a.Length == 0)
    ensures multiset(a[..]) == multiset(old(a[..]))
    ensures Distilled(old(a[..]), a[..n], key)
  {
    n := 0;
    ghost var s := a[..];
    for r := 0 to a.Length
      invariant Partly(s, a[..], r, n, key)
    {
      PartlyStep(s, a[..], r, n, key);
      if n == 0 || key(a[n - 1]) < key(a[r]) {
        Swap(a, n, r);
        n := n + 1;
      }
    }
    assert s[..a.Length] == s && a[..][..n] == a[..n];
  }

  method Slice<T>(a: array<T>, key: T -> int) returns (n: nat)
    modifies a
    ensures n <= a.Length && multiset(a[..]) == multiset(old(a[..]))
    ensures Distilled(old(a[..]), a[..n], key)
    ensures n == 0 <==> a.Length == 0
  {
    Sort(a, key);
    SameMembers(old(a[..]), a[..]);
    n := Compact(a, key);
  }

  lemma SameMembers<T>(s: seq<T>, t: seq<T>)
    requires multiset(s) == multiset(t)
    ensures forall x :: x in s <==> x in t
  {
    forall x
      ensures x in s <==> x in t
    {
      assert x in s <==> x in multiset(s);
      assert x in t <==> x in multiset(t);
    }
  }

  /** The first kept element is a least element of the input. */
  lemma FirstIsLeast<T>(input: seq<T>, kept: seq<T>, key: T -> int)
    requires Distilled(input, kept, key) && |kept| > 0
    ensures kept[0] in input && forall x | x in input :: key(kept[0]) <= key(x)
  {
    forall x | x in input
      ensures key(kept[0]) <= key(x)
    {
      assert KeyIn(key(x), kept, key);
    }
  }
}
