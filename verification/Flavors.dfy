/** The search for the next bigger flavour. */
module Flavors {
  import opened Common
  import opened Strings
  import Uniq

  datatype Flavor = Flavor(vcpus: string, ram: int, specCode: string, azStatus: map<string, string>)

  datatype Candidate = Candidate(vcpus: int, ram: int, spec: string)

  /** What the search reads of an object: its zones, its flavour, and the dimension to raise. */
  datatype Request = Request(availabilityzone: string, flavorref: string, raisetype: string) {
    function FirstZone(): string {
      Split(availabilityzone, ',')[0]
    }

    /** Empty when only one zone is given; further zones are not looked at. */
    function SecondZone(): string {
      var azs := Split(availabilityzone, ',');
      if |azs| > 1 then azs[1] else ""
    }
  }

  predicate Normal(f: Flavor, zone: string) {
    zone in f.azStatus && f.azStatus[zone] == "normal"
  }

  predicate InZones(f: Flavor, req: Request) {
    Normal(f, req.FirstZone()) && (req.SecondZone() == "" || Normal(f, req.SecondZone()))
  }

  predicate IsHa(code: string) {
    HasSuffix(code, ".ha")
  }

  predicate IsReplica(code: string) {
    HasSuffix(code, ".rr")
  }

  /** An HA flavour is replaced by HA flavours; any other by one that is neither HA nor a read replica. */
  predicate SameClass(from: string, to: string) {
    if IsHa(from) then IsHa(to) else !IsHa(to) && !IsReplica(to)
  }

  datatype Extent = Extent(vcpus: string, ram: int)

  /** The present flavour's extent: the last catalogue entry under its code counts, and without one
      the search starts from zero. */
  function Current(catalogue: seq<Flavor>, code: string): Extent {
    if catalogue == [] then Extent("0", 0) else
      var last := catalogue[|catalogue| - 1];
      if last.specCode == code then Extent(last.vcpus, last.ram) else Current(catalogue[..|catalogue| - 1], code)
  }

  predicate Bigger(raisetype: string, cur: Extent, f: Flavor) {
    || (raisetype == "cpu" && Less(cur.vcpus, f.vcpus))
    || (raisetype == "mem" && cur.ram < f.ram)
  }

  predicate Accepted(req: Request, cur: Extent, f: Flavor) {
    InZones(f, req) && SameClass(req.flavorref, f.specCode) && Bigger(req.raisetype, cur, f)
  }

  predicate Eligible(catalogue: seq<Flavor>, req: Request, f: Flavor) {
    f in catalogue && Accepted(req, Current(catalogue, req.flavorref), f)
  }

  /** The number by which candidates are compared once they have passed the filter. */
  function Size(raisetype: string, f: Flavor): int {
    if raisetype == "cpu" then Atoi(f.vcpus) else f.ram
  }

  ghost predicate Smallest(catalogue: seq<Flavor>, req: Request, f: Flavor) {
    && Eligible(catalogue, req, f)
    && forall g | g in catalogue && Eligible(catalogue, req, g) :: Size(req.raisetype, f) <= Size(req.raisetype, g)
  }

  /** What the search promises: a code exactly when something is eligible, and then that of an
      eligible flavour of the least size. */
  ghost predicate Answers(catalogue: seq<Flavor>, req: Request, r: Option<string>) {
    match r
    case None => forall f | f in catalogue :: !Eligible(catalogue, req, f)
    case Some(code) => exists f | f in catalogue :: f.specCode == code && Smallest(catalogue, req, f)
  }

  function ToCandidate(f: Flavor): Candidate {
    Candidate(Atoi(f.vcpus), f.ram, f.specCode)
  }

  function CandidateSize(raisetype: string): Candidate -> int {
    (c: Candidate) => if raisetype == "cpu" then c.vcpus else c.ram
  }

  /** How often the nested zone loops append one accepted flavour: once per zone when no second zone is given. */
  function Copies(req: Request, cur: Extent, f: Flavor): nat {
    if !Accepted(req, cur, f) then 0
    else if req.SecondZone() == "" then |f.azStatus| else 1
  }

  method FindCurrent(catalogue: seq<Flavor>, code: string) returns (cur: Extent)
    ensures cur == Current(catalogue, code)
    ensures (forall f | f in catalogue :: f.specCode != code) ==> cur.vcpus == "0" && cur.ram == 0
    ensures forall i | 0 <= i < |catalogue| && catalogue[i].specCode == code ::
              || (cur.vcpus == catalogue[i].vcpus && cur.ram == catalogue[i].ram)
              || exists j | i < j < |catalogue| :: catalogue[j].specCode == code
  {
    cur := Extent("0", 0);
    for i := 0 to |catalogue|
      invariant cur == Current(catalogue[..i], code)
      invariant (forall j | 0 <= j < i :: catalogue[j].specCode != code) ==> cur == Extent("0", 0)
      invariant forall j | 0 <= j < i && catalogue[j].specCode == code ::
                  cur == Extent(catalogue[j].vcpus, catalogue[j].ram) ||
                  exists k | j < k < i :: catalogue[k].specCode == code
    {
      assert catalogue[..i + 1][..i] == catalogue[..i];
      if catalogue[i].specCode == code {
        cur := Extent(catalogue[i].vcpus, catalogue[i].ram);
      }
    }
    assert catalogue[..|catalogue|] == catalogue;
  }

  /** The loops over the zones of one flavour; Go visits a map in any order. */
  method Consider(req: Request, cur: Extent, f: Flavor, found: seq<Candidate>) returns (more: seq<Candidate>)
    ensures more == found + seq(Copies(req, cur, f), _ => ToCandidate(f))
  {
    more := found;
    var az1, az2 := req.FirstZone(), req.SecondZone();
    var zones := f.azStatus.Keys;
    while zones != {}
      invariant zones <= f.azStatus.Keys
      invariant more == found + seq(if az1 in zones then 0 else Copies(req, cur, f), _ => ToCandidate(f))
    {
      var n :| n in zones;
      zones := zones - {n};
      if n == az1 && f.azStatus[n] == "normal" {
        more := ConsiderSecond(req, cur, f, more);
      }
    }
  }

  method ConsiderSecond(req: Request, cur: Extent, f: Flavor, found: seq<Candidate>) returns (more: seq<Candidate>)
    requires Normal(f, req.FirstZone())
    ensures more == found + seq(Copies(req, cur, f), _ => ToCandidate(f))
  {
    more := found;
    ghost var count := 0;
    var az2 := req.SecondZone();
    var zones := f.azStatus.Keys;
    while zones != {}
      invariant zones <= f.azStatus.Keys
      invariant more == found + seq(count, _ => ToCandidate(f))
      invariant count == if !Accepted(req, cur, f) then 0
                         else if az2 == "" then |f.azStatus.Keys| - |zones|
                         else if az2 in zones then 0 else 1
    {
      var l :| l in zones;
      zones := zones - {l};
      if az2 == "" || (l == az2 && f.azStatus[l] == "normal") {
        if IsHa(req.flavorref) && IsHa(f.specCode) && Bigger(req.raisetype, cur, f) {
          more, count := more + [ToCandidate(f)], count + 1;
        }
        if !IsHa(req.flavorref) && !IsReplica(f.specCode) && !IsHa(f.specCode) && Bigger(req.raisetype, cur, f) {
          more, count := more + [ToCandidate(f)], count + 1;
        }
      }
    }
  }

  ghost predicate Gathered(found: seq<Candidate>, flavors: seq<Flavor>, req: Request, cur: Extent) {
    && (forall c | c in found :: exists f | f in flavors :: Accepted(req, cur, f) && ToCandidate(f) == c)
    && (forall f | f in flavors && Accepted(req, cur, f) :: ToCandidate(f) in found)
  }

  lemma GatheredStep(found: seq<Candidate>, flavors: seq<Flavor>, f: Flavor, req: Request, cur: Extent)
    requires Gathered(found, flavors, req, cur)
    ensures Gathered(found + seq(Copies(req, cur, f), _ => ToCandidate(f)), flavors + [f], req, cur)
  {
    var copies := seq(Copies(req, cur, f), _ => ToCandidate(f));
    forall c | c in found + copies
      ensures exists g | g in flavors + [f] :: Accepted(req, cur, g) && ToCandidate(g) == c
    {
      if c in found {
        var g :| g in flavors && Accepted(req, cur, g) && ToCandidate(g) == c;
        assert g in flavors + [f];
      } else {
        assert f in flavors + [f];
      }
    }
    if Accepted(req, cur, f) {
      assert req.FirstZone() in f.azStatus.Keys;
      assert copies[0] == ToCandidate(f);
    }
  }

  /** The same, said of the strings: the zones are the first two between commas, an empty second one
      counting for none; a code that ends in ".ha" is replaced by such codes, any other by codes that end
      neither in ".ha" nor in ".rr". */
  ghost predicate Fits(catalogue: seq<Flavor>, req: Request, f: Flavor) {
    var zones, cur := Split(req.availabilityzone, ','), Current(catalogue, req.flavorref);
    && f in catalogue
    && zones[0] in f.azStatus && f.azStatus[zones[0]] == "normal"
    && (|zones| > 1 && zones[1] != "" ==> zones[1] in f.azStatus && f.azStatus[zones[1]] == "normal")
    && (HasSuffix(req.flavorref, ".ha") ==> HasSuffix(f.specCode, ".ha"))
    && (!HasSuffix(req.flavorref, ".ha") ==> !HasSuffix(f.specCode, ".ha") && !HasSuffix(f.specCode, ".rr"))
    && (req.raisetype == "cpu" || req.raisetype == "mem")
    && (req.raisetype == "cpu" ==> Less(cur.vcpus, f.vcpus))
    && (req.raisetype == "mem" ==> cur.ram < f.ram)
  }

  lemma FitsIsEligible(catalogue: seq<Flavor>, req: Request)
    ensures forall f :: Eligible(catalogue, req, f) <==> Fits(catalogue, req, f)
  {
  }

  /** `None` stands for the error "no flavor found". */
  method RdsFlavorLookup(catalogue: seq<Flavor>, req: Request) returns (r: Option<string>)
    ensures Answers(catalogue, req, r)
    ensures r.None? ==> forall f | f in catalogue :: !Fits(catalogue, req, f)
    ensures r.Some? ==>
              exists f | f in catalogue ::
                && f.specCode == r.value && Fits(catalogue, req, f)
                && (req.raisetype == "cpu" ==>
                      forall g | g in catalogue && Fits(catalogue, req, g) :: Atoi(f.vcpus) <= Atoi(g.vcpus))
                && (req.raisetype == "mem" ==>
                      forall g | g in catalogue && Fits(catalogue, req, g) :: f.ram <= g.ram)
    ensures r.Some? && HasSuffix(req.flavorref, ".ha") ==> HasSuffix(r.value, ".ha")
    ensures r.Some? && !HasSuffix(req.flavorref, ".ha") ==> !HasSuffix(r.value, ".ha") && !HasSuffix(r.value, ".rr")
  {
    FitsIsEligible(catalogue, req);
    var cur := FindCurrent(catalogue, req.flavorref);
    if req.raisetype != "cpu" && req.raisetype != "mem" {
      return None;
    }
    var found := Gather(catalogue, req, cur);
    var posflavor := new Candidate[|found|](i requires 0 <= i < |found| => found[i]);
    assert posflavor[..] == found;
    var n := Uniq.Slice(posflavor, CandidateSize(req.raisetype));
    if n == 0 {
      return None;
    }
    LeastAnswers(catalogue, req, found, posflavor[..n]);
    return Some(posflavor[0].spec);
  }

  /** The loop over the catalogue. */
  method Gather(catalogue: seq<Flavor>, req: Request, cur: Extent) returns (found: seq<Candidate>)
    ensures Gathered(found, catalogue, req, cur)
  {
    found := [];
    for i := 0 to |catalogue|
      invariant Gathered(found, catalogue[..i], req, cur)
    {
      GatheredStep(found, catalogue[..i], catalogue[i], req, cur);
      found := Consider(req, cur, catalogue[i], found);
      assert catalogue[..i + 1] == catalogue[..i] + [catalogue[i]];
    }
    assert catalogue[..|catalogue|] == catalogue;
  }

  lemma LeastAnswers(catalogue: seq<Flavor>, req: Request, found: seq<Candidate>, kept: seq<Candidate>)
    requires Gathered(found, catalogue, req, Current(catalogue, req.flavorref))
    requires Uniq.Distilled(found, kept, CandidateSize(req.raisetype)) && |kept| > 0
    ensures Answers(catalogue, req, Some(kept[0].spec))
  {
    var key := CandidateSize(req.raisetype);
    Uniq.FirstIsLeast(found, kept, key);
    var f :| f in catalogue && Eligible(catalogue, req, f) && ToCandidate(f) == kept[0];
    forall g | g in catalogue && Eligible(catalogue, req, g)
      ensures Size(req.raisetype, f) <= Size(req.raisetype, g)
    {
      assert ToCandidate(g) in found;
      assert key(ToCandidate(f)) <= key(ToCandidate(g));
      assert key(ToCandidate(f)) == Size(req.raisetype, f);
      assert key(ToCandidate(g)) == Size(req.raisetype, g);
    }
  }

  /** One zone, or two, or two followed by others that are not looked at. */
  lemma ZonesAre(z1: string, z2: string, more: string)
    requires ',' !in z1 && ',' !in z2
    ensures var r := Request(z1, "", ""); r.FirstZone() == z1 && r.SecondZone() == ""
    ensures var r := Request(z1 + "," + z2, "", ""); r.FirstZone() == z1 && r.SecondZone() == z2
    ensures var r := Request(z1 + "," + z2 + "," + more, "", ""); r.FirstZone() == z1 && r.SecondZone() == z2
  {
    FindUnique(z1, ',', |z1|);
    FindUnique(z2, ',', |z2|);
    assert Split(z1, ',') == [z1] && Split(z2, ',') == [z2];
    SplitFirst(z1, z2, ',');
    SplitFirst(z2, more, ',');
    assert z1 + "," + z2 + "," + more == z1 + "," + (z2 + "," + more);
    SplitFirst(z1, z2 + "," + more, ',');
  }

  /** From a single instance the search passes by a read replica and an HA flavour, from an HA instance by
      the other two. */
  lemma ClassesApart()
    ensures var s, r, h, x := "c2.medium", "c2.large.rr", "c2.large.ha", "c2.xlarge";
            && SameClass(s, x) && !SameClass(s, r) && !SameClass(s, h)
            && SameClass(h, h) && !SameClass(h, x) && !SameClass(h, r)
  {
    assert "c2.large.rr"[8..] == ".rr" && "c2.large.ha"[8..] == ".ha";
    assert "c2.medium"[6..] == "ium" && "c2.xlarge"[6..] == "rge";
  }
}
