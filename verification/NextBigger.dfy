/** What the flavour search means: when its answer is the next bigger flavour read numerically, and
    that the answer does not depend on the order in which anything is listed. */
module NextBigger {
  import opened Common
  import opened Strings
  import opened Flavors

  ghost predicate UniqueCodes(catalogue: seq<Flavor>) {
    forall i, j | 0 <= i < j < |catalogue| :: catalogue[i].specCode != catalogue[j].specCode
  }

  lemma {:induction false} CurrentIsListed(catalogue: seq<Flavor>, code: string)
    ensures (exists f | f in catalogue :: f.specCode == code && Current(catalogue, code) == Extent(f.vcpus, f.ram))
            || (Current(catalogue, code) == Extent("0", 0) && forall f | f in catalogue :: f.specCode != code)
  {
    if catalogue != [] {
      var n := |catalogue| - 1;
      var last := catalogue[n];
      assert catalogue == catalogue[..n] + [last];
      if last.specCode != code {
        CurrentIsListed(catalogue[..n], code);
        if f :| f in catalogue[..n] && f.specCode == code && Current(catalogue, code) == Extent(f.vcpus, f.ram) {
          assert f in catalogue;
        }
      }
    }
  }

  lemma {:induction false} SmallestAmong(flavors: seq<Flavor>, catalogue: seq<Flavor>, req: Request)
    returns (m: Option<Flavor>)
    requires forall f | f in flavors :: f in catalogue
    ensures m.None? ==> forall f | f in flavors :: !Eligible(catalogue, req, f)
    ensures m.Some? ==> Eligible(catalogue, req, m.value)
    ensures m.Some? ==> forall f | f in flavors && Eligible(catalogue, req, f) ::
              Size(req.raisetype, m.value) <= Size(req.raisetype, f)
  {
    if flavors == [] {
      m := None;
    } else {
      var n := |flavors| - 1;
      assert flavors == flavors[..n] + [flavors[n]];
      m := SmallestAmong(flavors[..n], catalogue, req);
      if Eligible(catalogue, req, flavors[n]) &&
         (m.None? || Size(req.raisetype, flavors[n]) < Size(req.raisetype, m.value)) {
        m := Some(flavors[n]);
      }
    }
  }

  lemma AnswerExists(catalogue: seq<Flavor>, req: Request) returns (r: Option<string>)
    ensures Answers(catalogue, req, r)
  {
    var m := SmallestAmong(catalogue, catalogue, req);
    if m.Some? {
      assert Smallest(catalogue, req, m.value);
      r := Some(m.value.specCode);
    } else {
      r := None;
    }
  }

  // ----- independence of order and multiplicity

  /** The size of an answer from extent `cur`. */
  ghost function NextSize(catalogue: seq<Flavor>, req: Request, cur: Extent): Option<int> {
    if catalogue == [] then None else
      var f, least := catalogue[|catalogue| - 1], NextSize(catalogue[..|catalogue| - 1], req, cur);
      if !Accepted(req, cur, f) || (least.Some? && least.value <= Size(req.raisetype, f)) then least
      else Some(Size(req.raisetype, f))
  }

  ghost predicate LeastOver(catalogue: seq<Flavor>, req: Request, cur: Extent, size: Option<int>) {
    && (forall f | f in catalogue && Accepted(req, cur, f) :: size.Some? && size.value <= Size(req.raisetype, f))
    && (size.Some? ==> exists f | f in catalogue :: Accepted(req, cur, f) && Size(req.raisetype, f) == size.value)
  }

  lemma {:induction false} NextSizeIsLeast(catalogue: seq<Flavor>, req: Request, cur: Extent)
    ensures LeastOver(catalogue, req, cur, NextSize(catalogue, req, cur))
  {
    if catalogue != [] {
      var n := |catalogue| - 1;
      NextSizeIsLeast(catalogue[..n], req, cur);
      assert catalogue == catalogue[..n] + [catalogue[n]];
    }
  }

  ghost predicate SameEntries(c1: seq<Flavor>, c2: seq<Flavor>) {
    forall f :: f in c1 <==> f in c2
  }

  lemma LeastOverUnique(
    c1: seq<Flavor>, c2: seq<Flavor>, req: Request, cur: Extent, m: Option<int>, n: Option<int>)
    requires SameEntries(c1, c2) && LeastOver(c1, req, cur, m) && LeastOver(c2, req, cur, n)
    ensures m == n
  {
    if m.Some? {
      var f :| f in c1 && Accepted(req, cur, f) && Size(req.raisetype, f) == m.value;
      assert f in c2;
    }
    if n.Some? {
      var f :| f in c2 && Accepted(req, cur, f) && Size(req.raisetype, f) == n.value;
      assert f in c1;
    }
  }

  lemma NextSizeOfEntries(c1: seq<Flavor>, c2: seq<Flavor>, req: Request, cur: Extent)
    requires SameEntries(c1, c2)
    ensures NextSize(c1, req, cur) == NextSize(c2, req, cur)
  {
    NextSizeIsLeast(c1, req, cur);
    NextSizeIsLeast(c2, req, cur);
    LeastOverUnique(c1, c2, req, cur, NextSize(c1, req, cur), NextSize(c2, req, cur));
  }

  ghost predicate AnswersSize(catalogue: seq<Flavor>, req: Request, r: Option<string>, size: Option<int>) {
    && (r.None? <==> size.None?)
    && (r.Some? ==> exists f | f in catalogue ::
          f.specCode == r.value && Smallest(catalogue, req, f) && Size(req.raisetype, f) == size.value)
  }

  lemma AnswerHasNextSize(catalogue: seq<Flavor>, req: Request, r: Option<string>)
    requires Answers(catalogue, req, r)
    ensures AnswersSize(catalogue, req, r, NextSize(catalogue, req, Current(catalogue, req.flavorref)))
  {
    NextSizeIsLeast(catalogue, req, Current(catalogue, req.flavorref));
  }

  /** Both find nothing, or both find flavours of one size. */
  ghost predicate Alike(c1: seq<Flavor>, c2: seq<Flavor>, req: Request, r1: Option<string>, r2: Option<string>) {
    exists size :: AnswersSize(c1, req, r1, size) && AnswersSize(c2, req, r2, size)
  }

  /** Whichever entry under the present code is taken for the present flavour, the next size is the same. */
  ghost predicate Settled(catalogue: seq<Flavor>, req: Request) {
    forall f, g | f in catalogue && g in catalogue && f.specCode == g.specCode == req.flavorref ::
      NextSize(catalogue, req, Extent(f.vcpus, f.ram)) == NextSize(catalogue, req, Extent(g.vcpus, g.ram))
  }

  lemma AlikeBySize(c1: seq<Flavor>, c2: seq<Flavor>, req: Request, r1: Option<string>, r2: Option<string>)
    requires Answers(c1, req, r1) && Answers(c2, req, r2)
    ensures Alike(c1, c2, req, r1, r2) <==>
            NextSize(c1, req, Current(c1, req.flavorref)) == NextSize(c2, req, Current(c2, req.flavorref))
  {
    AnswerHasNextSize(c1, req, r1);
    AnswerHasNextSize(c2, req, r2);
    NextSizeIsLeast(c1, req, Current(c1, req.flavorref));
    NextSizeIsLeast(c2, req, Current(c2, req.flavorref));
  }

  /** Two runs over the same flavours, listed in any order and any number of times, find flavours of
      one size or both find none. */
  lemma OrderIndependent(c1: seq<Flavor>, c2: seq<Flavor>, req: Request, r1: Option<string>, r2: Option<string>)
    requires SameEntries(c1, c2) && Settled(c1, req)
    requires Answers(c1, req, r1) && Answers(c2, req, r2)
    ensures Alike(c1, c2, req, r1, r2)
  {
    CurrentIsListed(c1, req.flavorref);
    CurrentIsListed(c2, req.flavorref);
    NextSizeOfEntries(c1, c2, req, Current(c2, req.flavorref));
    AlikeBySize(c1, c2, req, r1, r2);
  }

  lemma AppendedIsCurrent(catalogue: seq<Flavor>, req: Request, f: Flavor)
    requires f in catalogue && f.specCode == req.flavorref
    requires forall c2, r1, r2 | SameEntries(catalogue, c2) && Answers(catalogue, req, r1) && Answers(c2, req, r2) ::
               Alike(catalogue, c2, req, r1, r2)
    ensures NextSize(catalogue, req, Extent(f.vcpus, f.ram)) ==
            NextSize(catalogue, req, Current(catalogue, req.flavorref))
  {
    var c2 := catalogue + [f];
    var r1 := AnswerExists(catalogue, req);
    var r2 := AnswerExists(c2, req);
    assert SameEntries(catalogue, c2) && Alike(catalogue, c2, req, r1, r2);
    AlikeBySize(catalogue, c2, req, r1, r2);
    NextSizeOfEntries(catalogue, c2, req, Extent(f.vcpus, f.ram));
    assert Current(c2, req.flavorref) == Extent(f.vcpus, f.ram);
  }

  /** The exact condition for that. */
  lemma OrderIndependentIff(catalogue: seq<Flavor>, req: Request)
    ensures Settled(catalogue, req) <==>
            forall c2, r1, r2 | SameEntries(catalogue, c2) && Answers(catalogue, req, r1) && Answers(c2, req, r2) ::
              Alike(catalogue, c2, req, r1, r2)
  {
    if Settled(catalogue, req) {
      forall c2, r1, r2 | SameEntries(catalogue, c2) && Answers(catalogue, req, r1) && Answers(c2, req, r2)
        ensures Alike(catalogue, c2, req, r1, r2)
      {
        OrderIndependent(catalogue, c2, req, r1, r2);
      }
    } else {
      var f, g :| f in catalogue && g in catalogue && f.specCode == g.specCode == req.flavorref &&
        NextSize(catalogue, req, Extent(f.vcpus, f.ram)) != NextSize(catalogue, req, Extent(g.vcpus, g.ram));
      if forall c2, r1, r2 | SameEntries(catalogue, c2) && Answers(catalogue, req, r1) && Answers(c2, req, r2) ::
           Alike(catalogue, c2, req, r1, r2) {
        AppendedIsCurrent(catalogue, req, f);
        AppendedIsCurrent(catalogue, req, g);
      }
    }
  }

  lemma {:induction false} UniqueCodesSettle(catalogue: seq<Flavor>, req: Request)
    requires UniqueCodes(catalogue)
    ensures Settled(catalogue, req)
  {
    forall f, g | f in catalogue && g in catalogue && f.specCode == g.specCode == req.flavorref
      ensures f == g
    {
      CodeIdentifies(catalogue, f, g);
    }
  }

  // ----- the cpu dimension, read as numbers

  ghost predicate Counted(catalogue: seq<Flavor>) {
    forall f | f in catalogue :: IsCount(f.vcpus)
  }

  /** A flavour the object may move to, whatever its size. */
  predicate Allowed(catalogue: seq<Flavor>, req: Request, f: Flavor) {
    f in catalogue && InZones(f, req) && SameClass(req.flavorref, f.specCode)
  }

  function CurrentCount(catalogue: seq<Flavor>, req: Request): int {
    Atoi(Current(catalogue, req.flavorref).vcpus)
  }

  predicate MoreCpus(catalogue: seq<Flavor>, req: Request, f: Flavor) {
    Allowed(catalogue, req, f) && CurrentCount(catalogue, req) < Atoi(f.vcpus)
  }

  ghost predicate FewestMoreCpus(catalogue: seq<Flavor>, req: Request, f: Flavor) {
    && MoreCpus(catalogue, req, f)
    && forall g | g in catalogue && MoreCpus(catalogue, req, g) :: Atoi(f.vcpus) <= Atoi(g.vcpus)
  }

  /** "The next bigger flavour", as the documentation has it. */
  ghost predicate NextMoreCpus(catalogue: seq<Flavor>, req: Request, r: Option<string>) {
    match r
    case None => forall f | f in catalogue :: !MoreCpus(catalogue, req, f)
    case Some(code) => exists f | f in catalogue :: f.specCode == code && FewestMoreCpus(catalogue, req, f)
  }

  predicate AgreesWithCurrent(catalogue: seq<Flavor>, req: Request, f: Flavor)
    requires AllDigits(Current(catalogue, req.flavorref).vcpus) && AllDigits(f.vcpus)
  {
    Agree(Current(catalogue, req.flavorref).vcpus, f.vcpus)
  }

  lemma CurrentDigits(catalogue: seq<Flavor>, code: string)
    requires Counted(catalogue)
    ensures var cur := Current(catalogue, code).vcpus; AllDigits(cur) && (IsCount(cur) || cur == "0")
  {
    CurrentIsListed(catalogue, code);
  }

  /** Leading digits tell the truth about every allowed flavour that is not bigger, and about one of
      the smallest that are. */
  ghost predicate Readable(catalogue: seq<Flavor>, req: Request)
    requires Counted(catalogue)
  {
    CurrentDigits(catalogue, req.flavorref);
    && (forall f | f in catalogue && Allowed(catalogue, req, f) && !MoreCpus(catalogue, req, f) ::
          AgreesWithCurrent(catalogue, req, f))
    && ((exists f | f in catalogue :: MoreCpus(catalogue, req, f)) ==>
          exists f | f in catalogue :: FewestMoreCpus(catalogue, req, f) && AgreesWithCurrent(catalogue, req, f))
  }

  lemma StringFilter(catalogue: seq<Flavor>, req: Request, f: Flavor)
    requires Counted(catalogue) && req.raisetype == "cpu" && Allowed(catalogue, req, f)
    ensures AllDigits(Current(catalogue, req.flavorref).vcpus)
    ensures (Eligible(catalogue, req, f) <==> MoreCpus(catalogue, req, f)) <==> AgreesWithCurrent(catalogue, req, f)
  {
    CurrentDigits(catalogue, req.flavorref);
    CountOrder(Current(catalogue, req.flavorref).vcpus, f.vcpus);
  }

  ghost predicate Least(f: Flavor, flavors: set<Flavor>) {
    f in flavors && forall g | g in flavors :: Atoi(f.vcpus) <= Atoi(g.vcpus)
  }

  /** Picking a least element of `e` amounts to picking one of `m`, the elements above a threshold. */
  lemma SelectionExact(e: set<Flavor>, m: set<Flavor>, threshold: int)
    requires forall f | f in e + m :: f in m <==> threshold < Atoi(f.vcpus)
    requires e != {} ==> exists f :: Least(f, e)
    ensures e <= m && (m == {} || exists f :: Least(f, m) && f in e) <==>
            (e == {} ==> m == {}) && forall f :: Least(f, e) ==> Least(f, m)
  {
    if e <= m && m != {} && exists f :: Least(f, m) && f in e {
      var f :| Least(f, m) && f in e;
      forall g | Least(g, e)
        ensures Least(g, m)
      {
        assert Atoi(g.vcpus) <= Atoi(f.vcpus);
      }
    }
    if e != {} && forall f :: Least(f, e) ==> Least(f, m) {
      var f :| Least(f, e);
      assert Least(f, m);
      assert e <= m;
    }
  }

  ghost function EligibleSet(catalogue: seq<Flavor>, req: Request): set<Flavor> {
    set f | f in catalogue && Eligible(catalogue, req, f)
  }

  ghost function MoreCpusSet(catalogue: seq<Flavor>, req: Request): set<Flavor> {
    set f | f in catalogue && MoreCpus(catalogue, req, f)
  }

  lemma CodeIdentifies(catalogue: seq<Flavor>, f: Flavor, g: Flavor)
    requires UniqueCodes(catalogue) && f in catalogue && g in catalogue && f.specCode == g.specCode
    ensures f == g
  {
    var i :| 0 <= i < |catalogue| && catalogue[i] == f;
    var j :| 0 <= j < |catalogue| && catalogue[j] == g;
  }

  lemma LeastEligible(catalogue: seq<Flavor>, req: Request)
    requires req.raisetype == "cpu"
    ensures var e := EligibleSet(catalogue, req); e != {} ==> exists f :: Least(f, e)
  {
    var e := EligibleSet(catalogue, req);
    var q := SmallestAmong(catalogue, catalogue, req);
    if f :| f in e {
      assert Least(q.value, e);
    }
  }

  lemma Threshold(catalogue: seq<Flavor>, req: Request)
    requires req.raisetype == "cpu"
    ensures var e, m := EligibleSet(catalogue, req), MoreCpusSet(catalogue, req);
            forall f | f in e + m :: f in m <==> CurrentCount(catalogue, req) < Atoi(f.vcpus)
  {
  }

  lemma AnswersAsSets(catalogue: seq<Flavor>, req: Request)
    requires UniqueCodes(catalogue) && req.raisetype == "cpu"
    ensures var e, m := EligibleSet(catalogue, req), MoreCpusSet(catalogue, req);
            (forall r :: Answers(catalogue, req, r) ==> NextMoreCpus(catalogue, req, r)) <==>
            (e == {} ==> m == {}) && forall f :: Least(f, e) ==> Least(f, m)
  {
    var e, m := EligibleSet(catalogue, req), MoreCpusSet(catalogue, req);
    assert forall f :: Least(f, e) <==> f in catalogue && Smallest(catalogue, req, f);
    assert forall f :: Least(f, m) <==> f in catalogue && FewestMoreCpus(catalogue, req, f);
    if forall r :: Answers(catalogue, req, r) ==> NextMoreCpus(catalogue, req, r) {
      if e == {} {
        assert forall f | f in catalogue :: Eligible(catalogue, req, f) ==> f in e;
        assert Answers(catalogue, req, None);
      }
      forall f | Least(f, e)
        ensures Least(f, m)
      {
        assert Answers(catalogue, req, Some(f.specCode));
        var g :| g in catalogue && g.specCode == f.specCode && FewestMoreCpus(catalogue, req, g);
        CodeIdentifies(catalogue, f, g);
      }
    }
    if (e == {} ==> m == {}) && forall f :: Least(f, e) ==> Least(f, m) {
      forall r | Answers(catalogue, req, r)
        ensures NextMoreCpus(catalogue, req, r)
      {
        if r.None? {
          assert forall f | f in catalogue :: MoreCpus(catalogue, req, f) ==> f in m;
        } else {
          var f :| f in catalogue && f.specCode == r.value && Smallest(catalogue, req, f);
          assert Least(f, m);
        }
      }
    }
  }

  lemma ReadableAsSets(catalogue: seq<Flavor>, req: Request)
    requires Counted(catalogue) && req.raisetype == "cpu"
    ensures var e, m := EligibleSet(catalogue, req), MoreCpusSet(catalogue, req);
            Readable(catalogue, req) <==> e <= m && (m == {} || exists f :: Least(f, m) && f in e)
  {
    var e, m := EligibleSet(catalogue, req), MoreCpusSet(catalogue, req);
    CurrentDigits(catalogue, req.flavorref);
    forall f | f in catalogue && Allowed(catalogue, req, f)
      ensures (f in e <==> f in m) <==> AgreesWithCurrent(catalogue, req, f)
      ensures f in m <==> MoreCpus(catalogue, req, f)
    {
      StringFilter(catalogue, req, f);
    }
    assert forall f | f in e + m :: Allowed(catalogue, req, f);
    assert forall f :: Least(f, m) <==> f in catalogue && FewestMoreCpus(catalogue, req, f);
    assert m != {} ==> exists f :: f in m;
  }

  /** The search compares counts as strings. All its answers are the next bigger flavour if and only
      if the catalogue is readable for the request. */
  lemma CpuAnswersExact(catalogue: seq<Flavor>, req: Request)
    requires Counted(catalogue) && UniqueCodes(catalogue) && req.raisetype == "cpu"
    ensures Readable(catalogue, req) <==>
            forall r :: Answers(catalogue, req, r) ==> NextMoreCpus(catalogue, req, r)
  {
    var e, m := EligibleSet(catalogue, req), MoreCpusSet(catalogue, req);
    ReadableAsSets(catalogue, req);
    AnswersAsSets(catalogue, req);
    LeastEligible(catalogue, req);
    Threshold(catalogue, req);
    SelectionExact(e, m, CurrentCount(catalogue, req));
  }

  ghost predicate OneLength(catalogue: seq<Flavor>) {
    forall f, g | f in catalogue && g in catalogue :: |f.vcpus| == |g.vcpus|
  }

  /** Counts of one length are always readable. */
  lemma OneLengthReadable(catalogue: seq<Flavor>, req: Request)
    requires Counted(catalogue) && OneLength(catalogue) && req.raisetype == "cpu"
    ensures Readable(catalogue, req)
    ensures forall f :: Eligible(catalogue, req, f) <==> MoreCpus(catalogue, req, f)
  {
    CurrentDigits(catalogue, req.flavorref);
    CurrentIsListed(catalogue, req.flavorref);
    var cur := Current(catalogue, req.flavorref).vcpus;
    forall f | f in catalogue && Allowed(catalogue, req, f)
      ensures Eligible(catalogue, req, f) <==> MoreCpus(catalogue, req, f)
    {
      StringFilter(catalogue, req, f);
      CountOrder(cur, f.vcpus);
    }
    var e := EligibleSet(catalogue, req);
    assert e == MoreCpusSet(catalogue, req);
    LeastEligible(catalogue, req);
    ReadableAsSets(catalogue, req);
  }

  lemma SampleCounts()
    ensures IsCount("4") && IsCount("8") && IsCount("16") && IsCount("32")
    ensures Atoi("4") == 4 && Atoi("8") == 8 && Atoi("16") == 16 && Atoi("32") == 32
  {
    AtoiCount("4");
    AtoiCount("8");
    AtoiCount("16");
    AtoiCount("32");
    assert "16"[1..] == "6" && "32"[1..] == "2" && "4"[1..] == "8"[1..] == "6"[1..] == "2"[1..] == "";
    assert Pow10(1) == 10;
  }

  function Sample(vcpus: string, code: string): Flavor {
    Flavor(vcpus, 1, code, map["z" := "normal"])
  }

  lemma SampleZone(raisetype: string, code: string)
    ensures var req := Request("z", code, raisetype); req.FirstZone() == "z" && req.SecondZone() == ""
  {
    FindUnique("z", ',', 1);
    assert Split("z", ',') == ["z"];
  }

  /** Mixed lengths go wrong both ways. From 8 vCPUs, 16 is overlooked. */
  lemma BiggerOverlooked()
    ensures var c, req := [Sample("8", "s"), Sample("16", "b")], Request("z", "s", "cpu");
            Answers(c, req, None) && MoreCpus(c, req, c[1])
  {
    var c := [Sample("8", "s"), Sample("16", "b")];
    SampleCounts();
    SampleZone("cpu", "s");
    assert c[..1] == [Sample("8", "s")];
    assert Current(c, "s") == Extent("8", 1);
  }

  /** From 16 vCPUs, 4 is chosen. */
  lemma SmallerChosen()
    ensures var c, req := [Sample("4", "s"), Sample("16", "b")], Request("z", "b", "cpu");
            Answers(c, req, Some("s")) && !MoreCpus(c, req, c[0])
  {
    var c, req := [Sample("4", "s"), Sample("16", "b")], Request("z", "b", "cpu");
    SampleCounts();
    SampleZone("cpu", "b");
    assert Current(c, "b") == Extent("16", 1);
    assert Smallest(c, req, c[0]);
  }

  /** A code listed twice with different counts: its two orders give different answers. */
  lemma OrderMatters()
    ensures var s, b, m, req := Sample("4", "s"), Sample("8", "s"), Sample("6", "m"), Request("z", "s", "cpu");
            Answers([s, b, m], req, None) && Answers([b, s, m], req, Some("m"))
  {
    var s, b, m, req := Sample("4", "s"), Sample("8", "s"), Sample("6", "m"), Request("z", "s", "cpu");
    SampleCounts();
    AtoiCount("6");
    SampleZone("cpu", "s");
    assert [s, b, m][..2] == [s, b] && [b, s, m][..2] == [b, s];
    assert Current([s, b], "s") == Extent("8", 1) && Current([b, s], "s") == Extent("4", 1);
    assert Current([s, b, m], "s") == Extent("8", 1) && Current([b, s, m], "s") == Extent("4", 1);
    assert Smallest([b, s, m], req, m);
  }
}
