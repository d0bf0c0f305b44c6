/** The climb that repeated alarms make through the catalogue: each alarm replaces the flavour by an
    answer of the search. When it must stop, and when it need not. */
module Ascent {
  import opened Common
  import opened Strings
  import opened Flavors
  import opened NextBigger

  /** `refs[i + 1]` is an answer to alarm `raises[i]` on flavour `refs[i]`. */
  ghost predicate Climb(catalogue: seq<Flavor>, zones: string, refs: seq<string>, raises: seq<string>) {
    && |refs| == |raises| + 1
    && forall i | 0 <= i < |raises| :: Answers(catalogue, Request(zones, refs[i], raises[i]), Some(refs[i + 1]))
  }

  function ExtentOf(f: Flavor): Extent {
    Extent(f.vcpus, f.ram)
  }

  /** The one dimension that an alarm raises. */
  function Project(raisetype: string, e: Extent): Extent {
    if raisetype == "cpu" then Extent(e.vcpus, 0) else Extent("", e.ram)
  }

  ghost function Sizes(catalogue: seq<Flavor>, raisetype: string): set<Extent> {
    set f | f in catalogue :: Project(raisetype, ExtentOf(f))
  }

  ghost function Above(catalogue: seq<Flavor>, raisetype: string, cur: Extent): set<Extent> {
    set f | f in catalogue && Bigger(raisetype, cur, f) :: Project(raisetype, ExtentOf(f))
  }

  lemma {:induction false} CurrentOfListed(catalogue: seq<Flavor>, f: Flavor)
    requires UniqueCodes(catalogue) && f in catalogue
    ensures Current(catalogue, f.specCode) == ExtentOf(f)
  {
    CurrentIsListed(catalogue, f.specCode);
    var g :| g in catalogue && g.specCode == f.specCode && Current(catalogue, f.specCode) == ExtentOf(g);
    CodeIdentifies(catalogue, f, g);
  }

  /** The flavour behind an answer, with its place in the search. */
  lemma StepTo(catalogue: seq<Flavor>, req: Request, code: string) returns (f: Flavor)
    requires UniqueCodes(catalogue) && Answers(catalogue, req, Some(code))
    ensures f in catalogue && f.specCode == code && Current(catalogue, code) == ExtentOf(f)
    ensures Allowed(catalogue, req, f) && Bigger(req.raisetype, Current(catalogue, req.flavorref), f)
  {
    f :| f in catalogue && f.specCode == code && Smallest(catalogue, req, f);
    CurrentOfListed(catalogue, f);
  }

  lemma BiggerTransitive(raisetype: string, cur: Extent, f: Flavor, g: Flavor)
    requires Bigger(raisetype, cur, f) && Bigger(raisetype, ExtentOf(f), g)
    ensures Bigger(raisetype, cur, g) && Project(raisetype, ExtentOf(f)) != Project(raisetype, ExtentOf(g))
  {
    LessTotal(f.vcpus, g.vcpus);
    if raisetype == "cpu" {
      LessTransitive(cur.vcpus, f.vcpus, g.vcpus);
    }
  }

  lemma SubsetSize<T>(s: set<T>, t: set<T>)
    requires s <= t
    ensures |s| <= |t|
  {
    assert t == s + (t - s);
  }

  lemma AboveShrinks(catalogue: seq<Flavor>, raisetype: string, cur: Extent, f: Flavor)
    requires f in catalogue && Bigger(raisetype, cur, f)
    ensures |Above(catalogue, raisetype, ExtentOf(f))| < |Above(catalogue, raisetype, cur)|
  {
    var before, after := Above(catalogue, raisetype, cur), Above(catalogue, raisetype, ExtentOf(f));
    var p := Project(raisetype, ExtentOf(f));
    forall q | q in after
      ensures q in before && q != p
    {
      var g :| g in catalogue && Bigger(raisetype, ExtentOf(f), g) && q == Project(raisetype, ExtentOf(g));
      BiggerTransitive(raisetype, cur, f, g);
    }
    assert p in before;
    SubsetSize(after, before - {p});
  }

  lemma {:induction false} ClimbWithin(
    catalogue: seq<Flavor>, zones: string, refs: seq<string>, raises: seq<string>, kind: string)
    requires UniqueCodes(catalogue) && Climb(catalogue, zones, refs, raises)
    requires forall i | 0 <= i < |raises| :: raises[i] == kind
    ensures |raises| <= |Above(catalogue, kind, Current(catalogue, refs[0]))|
    decreases |raises|
  {
    if raises != [] {
      assert raises[0] == kind;
      var f := StepTo(catalogue, Request(zones, refs[0], kind), refs[1]);
      AboveShrinks(catalogue, kind, Current(catalogue, refs[0]), f);
      ClimbWithin(catalogue, zones, refs[1..], raises[1..], kind);
    }
  }

  /** Alarms of one kind stop after at most as many steps as the catalogue has distinct sizes. */
  lemma OneKindStops(catalogue: seq<Flavor>, zones: string, refs: seq<string>, raises: seq<string>, kind: string)
    requires UniqueCodes(catalogue) && Climb(catalogue, zones, refs, raises)
    requires forall i | 0 <= i < |raises| :: raises[i] == kind
    ensures |raises| <= |Sizes(catalogue, kind)|
  {
    ClimbWithin(catalogue, zones, refs, raises, kind);
    SubsetSize(Above(catalogue, kind, Current(catalogue, refs[0])), Sizes(catalogue, kind));
  }

  /** RAM rises as a number; vCPUs as strings, and as numbers exactly where the two counts are ordered alike. */
  ghost predicate Raised(catalogue: seq<Flavor>, kind: string, before: Extent, after: Extent) {
    || (kind == "mem" && before.ram < after.ram)
    || (kind == "cpu" && Less(before.vcpus, after.vcpus) &&
        (Counted(catalogue) ==>
           && AllDigits(before.vcpus) && AllDigits(after.vcpus)
           && (Atoi(before.vcpus) < Atoi(after.vcpus) <==> Agree(before.vcpus, after.vcpus))))
  }

  lemma StepRaises(catalogue: seq<Flavor>, req: Request, code: string, later: string)
    requires UniqueCodes(catalogue) && Answers(catalogue, req, Some(code))
    requires later == code || Raised(catalogue, req.raisetype, Current(catalogue, code), Current(catalogue, later))
    ensures Raised(catalogue, req.raisetype, Current(catalogue, req.flavorref), Current(catalogue, later))
  {
    var f := StepTo(catalogue, req, code);
    if req.raisetype == "cpu" {
      var cur, last := Current(catalogue, req.flavorref).vcpus, Current(catalogue, later).vcpus;
      if later != code {
        LessTransitive(cur, f.vcpus, last);
      }
      if Counted(catalogue) {
        CurrentDigits(catalogue, req.flavorref);
        CurrentDigits(catalogue, later);
        assert last != "0" by {
          NothingBelowZero(cur);
        }
        CountOrder(cur, last);
      }
    }
  }

  /** Alarms of one kind raise that dimension between any two flavours of their climb. */
  lemma {:induction false} OneKindRises(
    catalogue: seq<Flavor>, zones: string, refs: seq<string>, raises: seq<string>, kind: string, j: nat)
    requires UniqueCodes(catalogue) && Climb(catalogue, zones, refs, raises)
    requires forall i | 0 <= i < |raises| :: raises[i] == kind
    requires 0 < j < |refs|
    ensures Raised(catalogue, kind, Current(catalogue, refs[0]), Current(catalogue, refs[j]))
    decreases j
  {
    assert raises[0] == kind;
    if j > 1 {
      OneKindRises(catalogue, zones, refs[1..], raises[1..], kind, j - 1);
    }
    StepRaises(catalogue, Request(zones, refs[0], kind), refs[1], refs[j]);
  }

  /** The first step fixes the HA class for good. */
  lemma {:induction false} ClassKept(
    catalogue: seq<Flavor>, zones: string, refs: seq<string>, raises: seq<string>, j: nat)
    requires Climb(catalogue, zones, refs, raises) && 0 < j < |refs|
    ensures SameClass(refs[0], refs[j])
    ensures forall code :: SameClass(refs[j], code) <==> SameClass(refs[0], code)
    decreases j
  {
    var req := Request(zones, refs[0], raises[0]);
    assert Answers(catalogue, req, Some(refs[0 + 1]));
    var f :| f in catalogue && f.specCode == refs[1] && Smallest(catalogue, req, f);
    assert SameClass(refs[0], refs[1]);
    if j > 1 {
      ClassKept(catalogue, zones, refs[1..], raises[1..], j - 1);
    }
  }

  // ----- alarms of both kinds

  /** The flavours open to an object of the class of `code`. */
  predicate Open(catalogue: seq<Flavor>, zones: string, code: string, f: Flavor) {
    Allowed(catalogue, Request(zones, code, ""), f)
  }

  /** A cpu alarm on `f` can be answered by `g`. */
  ghost predicate CpuAnswer(catalogue: seq<Flavor>, zones: string, f: Flavor, g: Flavor) {
    Smallest(catalogue, Request(zones, f.specCode, "cpu"), g)
  }

  /** No answer to a cpu alarm costs RAM. */
  ghost predicate KeepsRam(catalogue: seq<Flavor>, zones: string, code: string) {
    forall f, g | Open(catalogue, zones, code, f) && g in catalogue ::
      CpuAnswer(catalogue, zones, f, g) ==> f.ram <= g.ram
  }

  /** More RAM, or as much with more vCPUs as strings go. */
  predicate Ahead(a: Extent, b: Extent) {
    b.ram < a.ram || (a.ram == b.ram && Less(b.vcpus, a.vcpus))
  }

  ghost function AheadOf(catalogue: seq<Flavor>, cur: Extent): set<Extent> {
    set f | f in catalogue && Ahead(ExtentOf(f), cur) :: ExtentOf(f)
  }

  ghost function Extents(catalogue: seq<Flavor>): set<Extent> {
    set f | f in catalogue :: ExtentOf(f)
  }

  lemma AheadShrinks(catalogue: seq<Flavor>, cur: Extent, f: Flavor)
    requires f in catalogue && Ahead(ExtentOf(f), cur)
    ensures |AheadOf(catalogue, ExtentOf(f))| < |AheadOf(catalogue, cur)|
  {
    var before, after := AheadOf(catalogue, cur), AheadOf(catalogue, ExtentOf(f));
    forall e | e in after
      ensures e in before && e != ExtentOf(f)
    {
      LessTotal(e.vcpus, e.vcpus);
      if Less(cur.vcpus, f.vcpus) && Less(f.vcpus, e.vcpus) {
        LessTransitive(cur.vcpus, f.vcpus, e.vcpus);
      }
    }
    assert ExtentOf(f) in before;
    SubsetSize(after, before - {ExtentOf(f)});
  }

  lemma {:induction false} MixedWithin(
    catalogue: seq<Flavor>, zones: string, code: string, f: Flavor, refs: seq<string>, raises: seq<string>)
    requires UniqueCodes(catalogue) && KeepsRam(catalogue, zones, code)
    requires Climb(catalogue, zones, refs, raises) && refs[0] == f.specCode
    requires Open(catalogue, zones, code, f)
    ensures |raises| <= |AheadOf(catalogue, ExtentOf(f))|
    decreases |raises|
  {
    if raises != [] {
      var req := Request(zones, refs[0], raises[0]);
      assert Answers(catalogue, req, Some(refs[0 + 1]));
      var g :| g in catalogue && g.specCode == refs[1] && Smallest(catalogue, req, g);
      CurrentOfListed(catalogue, f);
      assert Open(catalogue, zones, code, g);
      assert raises[0] == "cpu" ==> CpuAnswer(catalogue, zones, f, g);
      AheadShrinks(catalogue, ExtentOf(f), g);
      MixedWithin(catalogue, zones, code, g, refs[1..], raises[1..]);
    }
  }

  lemma KeptRamStops(
    catalogue: seq<Flavor>, zones: string, code: string, refs: seq<string>, raises: seq<string>)
    requires UniqueCodes(catalogue) && Climb(catalogue, zones, refs, raises)
    requires KeepsRam(catalogue, zones, code) && IsHa(refs[0]) == IsHa(code)
    ensures |raises| <= |Extents(catalogue)|
  {
    if raises != [] {
      assert Answers(catalogue, Request(zones, refs[0], raises[0]), Some(refs[0 + 1]));
      var f := StepTo(catalogue, Request(zones, refs[0], raises[0]), refs[1]);
      assert Open(catalogue, zones, code, f);
      MixedWithin(catalogue, zones, code, f, refs[1..], raises[1..]);
      LessTotal(f.vcpus, f.vcpus);
      SubsetSize(AheadOf(catalogue, ExtentOf(f)), Extents(catalogue) - {ExtentOf(f)});
      assert ExtentOf(f) in Extents(catalogue);
    }
  }

  lemma ClimbConcat(catalogue: seq<Flavor>, zones: string,
    refs1: seq<string>, raises1: seq<string>, refs2: seq<string>, raises2: seq<string>)
    requires Climb(catalogue, zones, refs1, raises1) && Climb(catalogue, zones, refs2, raises2)
    requires refs1[|refs1| - 1] == refs2[0]
    ensures Climb(catalogue, zones, refs1 + refs2[1..], raises1 + raises2)
  {
    var refs, raises, n := refs1 + refs2[1..], raises1 + raises2, |raises1|;
    forall i | 0 <= i < |raises|
      ensures Answers(catalogue, Request(zones, refs[i], raises[i]), Some(refs[i + 1]))
    {
      if i < n {
        assert Answers(catalogue, Request(zones, refs1[i], raises1[i]), Some(refs1[i + 1]));
      } else {
        assert Answers(catalogue, Request(zones, refs2[i - n], raises2[i - n]), Some(refs2[i - n + 1]));
      }
    }
  }

  lemma OneStep(catalogue: seq<Flavor>, zones: string, kind: string, f: Flavor, g: Flavor)
    requires g in catalogue && Smallest(catalogue, Request(zones, f.specCode, kind), g)
    ensures Climb(catalogue, zones, [f.specCode, g.specCode], [kind])
  {
  }

  /** Memory alarms can reach every flavour of the class that has more RAM. */
  lemma {:induction false} ClimbToRam(catalogue: seq<Flavor>, zones: string, f: Flavor, g: Flavor)
    returns (refs: seq<string>, raises: seq<string>)
    requires UniqueCodes(catalogue) && f in catalogue
    requires Allowed(catalogue, Request(zones, f.specCode, "mem"), g) && f.ram < g.ram
    ensures Climb(catalogue, zones, refs, raises) && |raises| > 0
    ensures refs[0] == f.specCode && refs[|refs| - 1] == g.specCode
    decreases |Above(catalogue, "mem", ExtentOf(f))|
  {
    var req := Request(zones, f.specCode, "mem");
    CurrentOfListed(catalogue, f);
    assert Eligible(catalogue, req, g);
    var q := SmallestAmong(catalogue, catalogue, req);
    var m := if q.value.ram == g.ram then g else q.value;
    assert Smallest(catalogue, req, m);
    OneStep(catalogue, zones, "mem", f, m);
    refs, raises := [f.specCode, m.specCode], ["mem"];
    if m.ram != g.ram {
      AboveShrinks(catalogue, "mem", ExtentOf(f), m);
      var refs2, raises2 := ClimbToRam(catalogue, zones, m, g);
      ClimbConcat(catalogue, zones, refs, raises, refs2, raises2);
      refs, raises := refs + refs2[1..], raises + raises2;
    }
  }

  /** Where a cpu alarm costs RAM, alternating alarms can go round for ever: any number of steps. */
  lemma {:induction false} MixedNeedNotStop(catalogue: seq<Flavor>, zones: string, f: Flavor, g: Flavor, n: nat)
    returns (refs: seq<string>, raises: seq<string>)
    requires UniqueCodes(catalogue) && Open(catalogue, zones, f.specCode, f) && g in catalogue
    requires CpuAnswer(catalogue, zones, f, g) && g.ram < f.ram
    ensures Climb(catalogue, zones, refs, raises) && |raises| >= n
    ensures refs[0] == refs[|refs| - 1] == f.specCode
  {
    if n == 0 {
      refs, raises := [f.specCode], [];
    } else {
      OneStep(catalogue, zones, "cpu", f, g);
      var up, ups := [f.specCode, g.specCode], ["cpu"];
      var down, downs := ClimbToRam(catalogue, zones, g, f);
      ClimbConcat(catalogue, zones, up, ups, down, downs);
      refs, raises := MixedNeedNotStop(catalogue, zones, f, g, n - 1);
      ClimbConcat(catalogue, zones, up + down[1..], ups + downs, refs, raises);
      refs, raises := up + down[1..] + refs[1..], ups + downs + raises;
    }
  }

  /** However cpu and memory alarms alternate, every climb of the class is bounded. */
  ghost predicate MixedBounded(catalogue: seq<Flavor>, zones: string, code: string) {
    forall refs, raises | Climb(catalogue, zones, refs, raises) && IsHa(refs[0]) == IsHa(code) ::
      |raises| <= |Extents(catalogue)|
  }

  /** The exact condition under which mixed alarms stop, for an object of the class of `code`. */
  lemma MixedStopsIff(catalogue: seq<Flavor>, zones: string, code: string)
    requires UniqueCodes(catalogue)
    ensures KeepsRam(catalogue, zones, code) <==> MixedBounded(catalogue, zones, code)
  {
    if KeepsRam(catalogue, zones, code) {
      forall refs, raises | Climb(catalogue, zones, refs, raises) && IsHa(refs[0]) == IsHa(code)
        ensures |raises| <= |Extents(catalogue)|
      {
        KeptRamStops(catalogue, zones, code, refs, raises);
      }
    } else {
      var f, g :| Open(catalogue, zones, code, f) && g in catalogue &&
                  CpuAnswer(catalogue, zones, f, g) && g.ram < f.ram;
      var refs, raises := MixedNeedNotStop(catalogue, zones, f, g, |Extents(catalogue)| + 1);
      assert IsHa(f.specCode) == IsHa(code);
    }
  }

  // ----- the numeric reading of the condition

  /** `g` has more vCPUs than `f`, read as numbers, and less RAM. */
  predicate Conflict(f: Flavor, g: Flavor) {
    Atoi(f.vcpus) < Atoi(g.vcpus) && g.ram < f.ram
  }

  /** Among the flavours open to an object, more vCPUs never come with less RAM. */
  ghost predicate NumbersCompatible(catalogue: seq<Flavor>, zones: string, code: string) {
    forall f, g | Open(catalogue, zones, code, f) && Open(catalogue, zones, code, g) :: !Conflict(f, g)
  }

  /** From every flavour open to the object, the answers to a cpu alarm are numerically next. */
  ghost predicate ReadableThroughout(catalogue: seq<Flavor>, zones: string, code: string)
    requires Counted(catalogue)
  {
    forall f | Open(catalogue, zones, code, f) :: Readable(catalogue, Request(zones, f.specCode, "cpu"))
  }

  lemma OneLengthThroughout(catalogue: seq<Flavor>, zones: string, code: string)
    requires Counted(catalogue) && OneLength(catalogue)
    ensures ReadableThroughout(catalogue, zones, code)
  {
    forall f | Open(catalogue, zones, code, f)
      ensures Readable(catalogue, Request(zones, f.specCode, "cpu"))
    {
      OneLengthReadable(catalogue, Request(zones, f.specCode, "cpu"));
    }
  }

  lemma NextCpu(catalogue: seq<Flavor>, zones: string, f: Flavor, m: Flavor)
    requires Counted(catalogue) && UniqueCodes(catalogue) && f in catalogue && m in catalogue
    requires Readable(catalogue, Request(zones, f.specCode, "cpu")) && CpuAnswer(catalogue, zones, f, m)
    ensures FewestMoreCpus(catalogue, Request(zones, f.specCode, "cpu"), m)
    ensures Current(catalogue, f.specCode) == ExtentOf(f)
  {
    var req := Request(zones, f.specCode, "cpu");
    CpuAnswersExact(catalogue, req);
    assert Answers(catalogue, req, Some(m.specCode));
    var h :| h in catalogue && h.specCode == m.specCode && FewestMoreCpus(catalogue, req, h);
    CodeIdentifies(catalogue, h, m);
    CurrentOfListed(catalogue, f);
  }

  lemma EligibleTwin(catalogue: seq<Flavor>, req: Request, m: Flavor, g: Flavor)
    requires Smallest(catalogue, req, m) && Allowed(catalogue, req, g) && m.vcpus == g.vcpus && req.raisetype == "cpu"
    ensures Smallest(catalogue, req, g)
  {
  }

  /** The next step towards `g`, if not `g` itself. */
  lemma StepTowards(catalogue: seq<Flavor>, zones: string, f: Flavor, g: Flavor) returns (m: Flavor)
    requires UniqueCodes(catalogue) && Counted(catalogue) && f in catalogue
    requires Readable(catalogue, Request(zones, f.specCode, "cpu"))
    requires Allowed(catalogue, Request(zones, f.specCode, "cpu"), g) && Atoi(f.vcpus) < Atoi(g.vcpus)
    ensures m in catalogue && CpuAnswer(catalogue, zones, f, m) && Bigger("cpu", ExtentOf(f), m)
    ensures m == g || Atoi(m.vcpus) < Atoi(g.vcpus)
  {
    var req := Request(zones, f.specCode, "cpu");
    CurrentOfListed(catalogue, f);
    assert MoreCpus(catalogue, req, g);
    var r := AnswerExists(catalogue, req);
    CpuAnswersExact(catalogue, req);
    m :| m in catalogue && m.specCode == r.value && Smallest(catalogue, req, m);
    NextCpu(catalogue, zones, f, m);
    if Atoi(m.vcpus) == Atoi(g.vcpus) {
      CountInjective(m.vcpus, g.vcpus);
      EligibleTwin(catalogue, req, m, g);
      m := g;
    }
  }

  /** On readable catalogues, cpu alarms can reach every flavour of the class that has more vCPUs. */
  lemma {:induction false} ClimbToCpus(catalogue: seq<Flavor>, zones: string, code: string, f: Flavor, g: Flavor)
    returns (refs: seq<string>, raises: seq<string>)
    requires UniqueCodes(catalogue) && Counted(catalogue) && ReadableThroughout(catalogue, zones, code)
    requires Open(catalogue, zones, code, f) && Open(catalogue, zones, code, g) && Atoi(f.vcpus) < Atoi(g.vcpus)
    ensures Climb(catalogue, zones, refs, raises) && |raises| > 0
    ensures forall i | 0 <= i < |raises| :: raises[i] == "cpu"
    ensures refs[0] == f.specCode && refs[|refs| - 1] == g.specCode
    decreases |Above(catalogue, "cpu", ExtentOf(f))|
  {
    var m := StepTowards(catalogue, zones, f, g);
    OneStep(catalogue, zones, "cpu", f, m);
    refs, raises := [f.specCode, m.specCode], ["cpu"];
    if m != g {
      AboveShrinks(catalogue, "cpu", ExtentOf(f), m);
      var refs2, raises2 := ClimbToCpus(catalogue, zones, code, m, g);
      ClimbConcat(catalogue, zones, refs, raises, refs2, raises2);
      refs, raises := refs + refs2[1..], raises + raises2;
    }
  }

  lemma {:induction false} KeptAlong(
    catalogue: seq<Flavor>, zones: string, code: string, f: Flavor, g: Flavor, refs: seq<string>, raises: seq<string>)
    requires UniqueCodes(catalogue) && KeepsRam(catalogue, zones, code) && Climb(catalogue, zones, refs, raises)
    requires forall i | 0 <= i < |raises| :: raises[i] == "cpu"
    requires Open(catalogue, zones, code, f) && g in catalogue
    requires refs[0] == f.specCode && refs[|refs| - 1] == g.specCode
    ensures f.ram <= g.ram
    decreases |raises|
  {
    if raises == [] {
      CodeIdentifies(catalogue, f, g);
    } else {
      var req := Request(zones, refs[0], raises[0]);
      assert Answers(catalogue, req, Some(refs[0 + 1]));
      var m :| m in catalogue && m.specCode == refs[1] && Smallest(catalogue, req, m);
      assert raises[0] == "cpu" && CpuAnswer(catalogue, zones, f, m);
      assert Open(catalogue, zones, code, m);
      KeptAlong(catalogue, zones, code, m, g, refs[1..], raises[1..]);
    }
  }

  /** On readable catalogues, among them all whose counts have one length, mixed alarms stop exactly
      where more vCPUs never come with less RAM, both read as numbers. */
  lemma ReadableMixedStopsIff(catalogue: seq<Flavor>, zones: string, code: string)
    requires UniqueCodes(catalogue) && Counted(catalogue) && ReadableThroughout(catalogue, zones, code)
    ensures NumbersCompatible(catalogue, zones, code) <==> MixedBounded(catalogue, zones, code)
  {
    MixedStopsIff(catalogue, zones, code);
    if NumbersCompatible(catalogue, zones, code) {
      forall f, g | Open(catalogue, zones, code, f) && g in catalogue && CpuAnswer(catalogue, zones, f, g)
        ensures f.ram <= g.ram
      {
        NextCpu(catalogue, zones, f, g);
        assert Open(catalogue, zones, code, g) && !Conflict(f, g);
      }
    }
    if KeepsRam(catalogue, zones, code) {
      forall f, g | Open(catalogue, zones, code, f) && Open(catalogue, zones, code, g)
        ensures !Conflict(f, g)
      {
        if Atoi(f.vcpus) < Atoi(g.vcpus) {
          var refs, raises := ClimbToCpus(catalogue, zones, code, f, g);
          KeptAlong(catalogue, zones, code, f, g, refs, raises);
        }
      }
    }
  }

  function SizedSample(vcpus: string, ram: int, code: string): Flavor {
    Flavor(vcpus, ram, code, map["z" := "normal"])
  }

  /** Elsewhere compatible numbers do not help: between 8 vCPUs with 16 GB and 16 vCPUs with 32 GB,
      alternating alarms go round for ever. */
  lemma CompatibleGoesRound(n: nat) returns (refs: seq<string>, raises: seq<string>)
    ensures var c := [SizedSample("8", 16, "s"), SizedSample("16", 32, "b")];
            && UniqueCodes(c) && Counted(c) && NumbersCompatible(c, "z", "b")
            && Climb(c, "z", refs, raises) && |raises| >= n
  {
    var s, b := SizedSample("8", 16, "s"), SizedSample("16", 32, "b");
    var c, req := [s, b], Request("z", "b", "cpu");
    SampleCounts();
    SampleZone("cpu", "b");
    SampleZone("", "b");
    assert Current(c, "b") == ExtentOf(b);
    assert Smallest(c, req, s);
    refs, raises := MixedNeedNotStop(c, "z", b, s, n);
  }

  /** Nor are they needed: here 32 vCPUs come with less RAM than 16, and all climbs are bounded. */
  lemma ConflictingStops()
    ensures var c := [SizedSample("16", 8, "f"), SizedSample("4", 8, "h"), SizedSample("32", 4, "g")];
            !NumbersCompatible(c, "z", "f") && MixedBounded(c, "z", "f")
  {
    var f, h, g := SizedSample("16", 8, "f"), SizedSample("4", 8, "h"), SizedSample("32", 4, "g");
    var c := [f, h, g];
    SampleCounts();
    SampleZone("", "f");
    assert Open(c, "z", "f", f) && Open(c, "z", "f", g) && Conflict(f, g);
    forall x, y | Open(c, "z", "f", x) && y in c && CpuAnswer(c, "z", x, y)
      ensures x.ram <= y.ram
    {
      SampleZone("cpu", x.specCode);
      CurrentOfListed(c, x);
      if x == f {
        assert Eligible(c, Request("z", "f", "cpu"), h);
      }
    }
    MixedStopsIff(c, "z", "f");
  }
}
