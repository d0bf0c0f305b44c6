/** The webhook through which alarms arrive. */
module Autopilot {
  import opened Common
  import opened Types
  import opened Cloud
  import opened Plans
  import opened Strings
  import opened Names
  import Flavors
  import NextBigger
  import Ascent
  import Runs

  const DISC_ALARM := "rds039_disk_util"
  const CPU_ALARM := "rds001_cpu_util"
  const MEM_ALARM := "rds002_mem_util"

  datatype Subscriber = Subscriber(subscribeUrl: string, signature: string, topicUrn: string, message: string)

  /** The fields that a request body sets. */
  datatype Body = Body(
    subscribeUrl: Option<string>, signature: Option<string>, topicUrn: Option<string>, message: Option<string>)

  function Either(o: Option<string>, default: string): string {
    if o.Some? then o.value else default
  }

  /** One subscriber record serves all requests: a field that a body leaves out keeps its last value. */
  function Merge(s: Subscriber, b: Body): Subscriber {
    Subscriber(Either(b.subscribeUrl, s.subscribeUrl), Either(b.signature, s.signature),
               Either(b.topicUrn, s.topicUrn), Either(b.message, s.message))
  }

  function Enlarged(o: Object): Object {
    o.(spec := o.spec.(volumesize := o.spec.volumesize + 10))
  }

  function WithFlavor(o: Object, flavor: string): Object {
    o.(spec := o.spec.(flavorref := flavor))
  }

  function RequestFor(o: Object, raisetype: string): Flavors.Request {
    Flavors.Request(o.spec.availabilityzone, o.spec.flavorref, raisetype)
  }

  /** What a look at the catalogue yields. Without a client the alarm is passed over; a listing that
      fails ends the whole process. */
  datatype Catalogue = NoClient | NoListing | Listing(list: seq<Flavors.Flavor>)

  /** The catalogue as the search for a cpu alarm sees it, and as the one for a memory alarm does; each
      asks for itself. */
  datatype Looks = Looks(cpu: Catalogue, mem: Catalogue)

  /** How a request ends: with an answer, with a panic that ends the request, or with the process. */
  datatype Ending = Answered | Panicked | Exited

  /** The reaction to one metric: where the message names it, `p` is `o` with the flavour that the
      search answers; where it finds none, or the message does not name the metric, nothing changes. */
  ghost predicate Climbed(
    catalogue: Catalogue, named: bool, o: Object, p: Object, raisetype: string, found: bool)
  {
    if found then
      && named && catalogue.Listing? && p == WithFlavor(o, p.spec.flavorref)
      && Flavors.Answers(catalogue.list, RequestFor(o, raisetype), Some(p.spec.flavorref))
    else
      p == o && (named && catalogue.Listing? ==> Flavors.Answers(catalogue.list, RequestFor(o, raisetype), None))
  }

  /** The process ends in the search for a cpu alarm. */
  predicate ExitsAtCpu(looks: Looks, message: string) {
    Contains(message, CPU_ALARM) && looks.cpu.NoListing?
  }

  predicate Exits(looks: Looks, message: string) {
    ExitsAtCpu(looks, message) || (Contains(message, MEM_ALARM) && looks.mem.NoListing?)
  }

  /** The message names the memory metric, and the process is still there to react. */
  predicate ComesToMem(looks: Looks, message: string) {
    Contains(message, MEM_ALARM) && !ExitsAtCpu(looks, message)
  }

  function AfterDisc(message: string, o: Object): Object {
    if Contains(message, DISC_ALARM) then Enlarged(o) else o
  }

  function When(b: bool, o: Object): seq<Object> {
    if b then [o] else []
  }

  /** The object after the reactions to cpu and memory, and whether either found a flavour. */
  datatype Trail = Trail(c: Object, cpu: bool, m: Object, mem: bool)

  /** Disc, cpu and memory in this order, each on top of the one before. */
  ghost predicate Reactions(looks: Looks, message: string, o: Object, t: Trail) {
    && Climbed(looks.cpu, Contains(message, CPU_ALARM), AfterDisc(message, o), t.c, "cpu", t.cpu)
    && Climbed(looks.mem, ComesToMem(looks, message), t.c, t.m, "mem", t.mem)
  }

  function FlavorWrites(t: Trail): seq<Object> {
    When(t.cpu, t.c) + When(t.mem, t.m)
  }

  /** What is sent to be stored. */
  function Writes(message: string, o: Object, t: Trail): seq<Object> {
    When(Contains(message, DISC_ALARM), AfterDisc(message, o)) + FlavorWrites(t)
  }

  /** Reactions change nothing but the size, by ten or not at all, and the flavour. */
  lemma ReactionKeepsObject(looks: Looks, message: string, o: Object, t: Trail, p: Object)
    requires Reactions(looks, message, o, t) && p in Writes(message, o, t)
    ensures p == o.(spec := o.spec.(volumesize := p.spec.volumesize, flavorref := p.spec.flavorref))
    ensures p.spec.volumesize == o.spec.volumesize + if Contains(message, "rds039_disk_util") then 10 else 0
    ensures p.spec.flavorref == o.spec.flavorref
            || Contains(message, "rds001_cpu_util") || Contains(message, "rds002_mem_util")
  {
    assert p == AfterDisc(message, o) || p == t.c || p == t.m;
  }

  /** Which metric raises what: a flavour found for rds001_cpu_util has more vCPUs, as strings, than the one
      before, one found for rds002_mem_util more RAM; where the metric is named, the process is still there
      and nothing is found, nothing fits. */
  lemma MetricRaises(looks: Looks, message: string, o: Object, t: Trail)
    requires Reactions(looks, message, o, t)
    requires looks.cpu.Listing? ==> NextBigger.UniqueCodes(looks.cpu.list)
    requires looks.mem.Listing? ==> NextBigger.UniqueCodes(looks.mem.list)
    ensures t.cpu ==>
              && Contains(message, "rds001_cpu_util") && looks.cpu.Listing?
              && Less(Flavors.Current(looks.cpu.list, o.spec.flavorref).vcpus,
                      Flavors.Current(looks.cpu.list, t.c.spec.flavorref).vcpus)
    ensures t.mem ==>
              && Contains(message, "rds002_mem_util") && looks.mem.Listing?
              && Flavors.Current(looks.mem.list, t.c.spec.flavorref).ram
                 < Flavors.Current(looks.mem.list, t.m.spec.flavorref).ram
    ensures !t.cpu && Contains(message, "rds001_cpu_util") && looks.cpu.Listing? ==>
              forall f | f in looks.cpu.list ::
                !Flavors.Fits(looks.cpu.list,
                   Flavors.Request(o.spec.availabilityzone, o.spec.flavorref, "cpu"), f)
    ensures !t.mem && Contains(message, "rds002_mem_util") && looks.mem.Listing? && t.cpu ==>
              forall f | f in looks.mem.list ::
                !Flavors.Fits(looks.mem.list,
                   Flavors.Request(o.spec.availabilityzone, t.c.spec.flavorref, "mem"), f)
  {
    var d := AfterDisc(message, o);
    if looks.cpu.Listing? {
      Flavors.FitsIsEligible(looks.cpu.list, RequestFor(d, "cpu"));
      if t.cpu {
        var f := Ascent.StepTo(looks.cpu.list, RequestFor(d, "cpu"), t.c.spec.flavorref);
      }
    }
    if looks.mem.Listing? {
      Flavors.FitsIsEligible(looks.mem.list, RequestFor(t.c, "mem"));
      if t.mem {
        var f := Ascent.StepTo(looks.mem.list, RequestFor(t.c, "mem"), t.m.spec.flavorref);
      }
    }
  }

  class SmnReceiver {
    const backend: Backend
    var subscriber: Subscriber

    constructor (backend: Backend)
      ensures this.backend == backend && subscriber == Subscriber("", "", "", "")
    {
      this.backend, subscriber := backend, Subscriber("", "", "", "");
    }

    /** The POST branch. `body` is None when it cannot be read as JSON; without a client configuration, or
        with a URN of another shape, the request panics. An alarm whose search cannot list the catalogue
        ends the process, after the reactions before it. */
    method Post(body: Option<Body>, configured: bool, looks: Looks)
      returns (r: Ending, ghost found: Option<Object>, ghost trail: Trail)
      requires forall k | k in backend.store :: KeyOf(backend.store[k]) == k
      modifies this`subscriber, backend`store, backend`raised, backend`errors
      ensures body.None? ==> subscriber == old(subscriber)
      ensures body.Some? ==>
                var b, s := body.value, old(subscriber);
                && (if b.subscribeUrl.Some? then subscriber.subscribeUrl == b.subscribeUrl.value
                    else subscriber.subscribeUrl == s.subscribeUrl)
                && (if b.signature.Some? then subscriber.signature == b.signature.value
                    else subscriber.signature == s.signature)
                && (if b.topicUrn.Some? then subscriber.topicUrn == b.topicUrn.value
                    else subscriber.topicUrn == s.topicUrn)
                && (if b.message.Some? then subscriber.message == b.message.value
                    else subscriber.message == s.message)
      ensures r.Panicked? <==> subscriber.signature != "" && (Decode(subscriber.topicUrn).None? || !configured)
      ensures r.Exited? <==>
                && subscriber.signature != "" && Decode(subscriber.topicUrn).Some? && configured
                && ((Contains(subscriber.message, "rds001_cpu_util") && looks.cpu.NoListing?) ||
                    (Contains(subscriber.message, "rds002_mem_util") && looks.mem.NoListing?))
      ensures backend.errors >= old(backend.errors)
      ensures found.None? ==> unchanged(backend`store, backend`raised)
      ensures found.None? && subscriber.signature != "" && !r.Panicked? ==>
                backend.errors > old(backend.errors) || Decode(subscriber.topicUrn).value !in backend.store
      ensures found.Some? ==>
                var o, message := found.value, subscriber.message;
                && subscriber.signature != "" && Decode(subscriber.topicUrn) == Some(KeyOf(o))
                && KeyOf(o) in old(backend.store) && old(backend.store)[KeyOf(o)] == o
                && Reactions(looks, message, o, trail)
                && backend.raised == old(backend.raised) + Writes(message, o, trail)
                && Stored(old(backend.store), backend.store, KeyOf(o), Writes(message, o, trail),
                     backend.errors == old(backend.errors))
    {
      found, trail := None, *;
      if body.Some? {
        subscriber := Merge(subscriber, body.value);
      }
      if subscriber.signature == "" {
        return Answered, None, trail;
      }
      var key := Decode(subscriber.topicUrn);
      if key.None? || !configured {
        return Panicked, None, trail;
      }
      var got := backend.GetObject(key.value.0, key.value.1);
      if got.None? {
        // the reactions work on an empty object, which cannot be updated
        return if Exits(looks, subscriber.message) then Exited else Answered, None, trail;
      }
      r, trail := React(got.value, subscriber.message, looks);
      found := got;
    }

    method React(o: Object, message: string, looks: Looks) returns (r: Ending, ghost trail: Trail)
      modifies backend`store, backend`raised, backend`errors
      ensures r == if Exits(looks, message) then Exited else Answered
      ensures Reactions(looks, message, o, trail)
      ensures backend.raised == old(backend.raised) + Writes(message, o, trail)
      ensures Stored(old(backend.store), backend.store, KeyOf(o), Writes(message, o, trail),
                backend.errors == old(backend.errors))
      ensures backend.errors >= old(backend.errors)
    {
      ghost var key, s0, e0 := KeyOf(o), backend.store, backend.errors;
      var disc := Contains(message, DISC_ALARM);
      var d := EnlargeDisc(o, disc);
      ghost var s1, e1 := backend.store, backend.errors;
      r, trail := ClimbTwice(d, message, looks);
      StoredThen(s0, s1, backend.store, key, When(disc, d), FlavorWrites(trail), e1 == e0, backend.errors == e1);
    }

    method EnlargeDisc(o: Object, named: bool) returns (p: Object)
      modifies backend`store, backend`raised, backend`errors
      ensures p == (if named then Enlarged(o) else o)
      ensures backend.raised == old(backend.raised) + When(named, p)
      ensures Stored(old(backend.store), backend.store, KeyOf(o), When(named, p), backend.errors == old(backend.errors))
      ensures backend.errors >= old(backend.errors)
    {
      p := o;
      if named {
        p := Enlarged(o);
        var ok := backend.RaiseObject(p);
      }
    }

    method ClimbTwice(d: Object, message: string, looks: Looks) returns (r: Ending, ghost t: Trail)
      modifies backend`store, backend`raised, backend`errors
      ensures r == if Exits(looks, message) then Exited else Answered
      ensures Climbed(looks.cpu, Contains(message, CPU_ALARM), d, t.c, "cpu", t.cpu)
      ensures Climbed(looks.mem, ComesToMem(looks, message), t.c, t.m, "mem", t.mem)
      ensures backend.raised == old(backend.raised) + FlavorWrites(t)
      ensures Stored(old(backend.store), backend.store, KeyOf(d), FlavorWrites(t),
                backend.errors == old(backend.errors))
      ensures backend.errors >= old(backend.errors)
    {
      ghost var s0, e0 := backend.store, backend.errors;
      ghost var cpu, mem;
      var c, m;
      r, c, cpu := Climb(d, Contains(message, CPU_ALARM), "cpu", looks.cpu);
      if r.Exited? {
        t := Trail(c, cpu, c, false);
        return;
      }
      ghost var s1, e1 := backend.store, backend.errors;
      r, m, mem := Climb(c, Contains(message, MEM_ALARM), "mem", looks.mem);
      StoredThen(s0, s1, backend.store, KeyOf(d), When(cpu, c), When(mem, m), e1 == e0, backend.errors == e1);
      t := Trail(c, cpu, m, mem);
    }

    /** The reaction to cpu and memory alarms. */
    method Climb(o: Object, named: bool, raisetype: string, catalogue: Catalogue)
      returns (r: Ending, p: Object, ghost found: bool)
      modifies backend`store, backend`raised, backend`errors
      ensures r == if named && catalogue.NoListing? then Exited else Answered
      ensures Climbed(catalogue, named, o, p, raisetype, found) && (r.Exited? ==> !found)
      ensures backend.raised == old(backend.raised) + When(found, p)
      ensures Stored(old(backend.store), backend.store, KeyOf(o), When(found, p), backend.errors == old(backend.errors))
      ensures backend.errors >= old(backend.errors)
    {
      if named && catalogue.NoListing? {
        return Exited, o, false;
      }
      r := Answered;
      if !named || catalogue.NoClient? {
        return r, o, false;
      }
      var next := Flavors.RdsFlavorLookup(catalogue.list, RequestFor(o, raisetype));
      if next.None? {
        return r, o, false;
      }
      p, found := WithFlavor(o, next.value), true;
      var ok := backend.RaiseObject(p);
    }
  }

  /** At most the object under `key` has changed, and then to one of those sent; to the last one sent
      when no answer was an error. */
  predicate Stored(s: map<Key, Object>, s': map<Key, Object>, key: Key, sent: seq<Object>, clean: bool) {
    && s'.Keys == s.Keys
    && (forall k | k in s && k != key :: s'[k] == s[k])
    && (key in s ==> s'[key] == s[key] || s'[key] in sent)
    && (key in s && clean ==> s'[key] == if sent == [] then s[key] else sent[|sent| - 1])
  }

  lemma StoredThen(
    s0: map<Key, Object>, s1: map<Key, Object>, s2: map<Key, Object>, key: Key,
    p: seq<Object>, q: seq<Object>, clean1: bool, clean2: bool)
    requires Stored(s0, s1, key, p, clean1) && Stored(s1, s2, key, q, clean2)
    ensures Stored(s0, s2, key, p + q, clean1 && clean2)
  {
  }

  // ----- alarms in runs, and the climb they make

  /** For the run of users, informer and workers, an alarm does nothing or stores one other version of the
      object, with its id. */
  lemma AlarmIsRaise(s: Runs.State, store: map<Key, Object>, o: Object, looks: Looks, message: string, t: Trail,
    clean: bool)
    requires KeyOf(o) in s.store && s.store[KeyOf(o)] == o && Reactions(looks, message, o, t)
    requires Stored(s.store, store, KeyOf(o), Writes(message, o, t), clean)
    ensures store == s.store || Runs.Step(s, Runs.Raise(KeyOf(o), store[KeyOf(o)]), s.(store := store))
  {
    var p := store[KeyOf(o)];
    if p != o {
      ReactionKeepsObject(looks, message, o, t, p);
    }
    assert store == s.store[KeyOf(o) := p];
  }

  /** Every listing that came about shows the same catalogue. */
  predicate Shows(looks: Looks, list: seq<Flavors.Flavor>) {
    (looks.cpu.Listing? ==> looks.cpu.list == list) && (looks.mem.Listing? ==> looks.mem.list == list)
  }

  /** How many flavours were found. */
  function Finds(ts: seq<Trail>): nat {
    if ts == [] then 0 else
      var t := ts[0];
      (if t.cpu then 1 else 0) + (if t.mem then 1 else 0) + Finds(ts[1..])
  }

  lemma FoundStep(list: seq<Flavors.Flavor>, catalogue: Catalogue, named: bool, o: Object, p: Object,
    raisetype: string, found: bool)
    returns (refs: seq<string>, raises: seq<string>)
    requires Climbed(catalogue, named, o, p, raisetype, found) && (catalogue.Listing? ==> catalogue.list == list)
    ensures Ascent.Climb(list, o.spec.availabilityzone, refs, raises) && |raises| == if found then 1 else 0
    ensures refs[0] == o.spec.flavorref && refs[|refs| - 1] == p.spec.flavorref
  {
    if found {
      refs, raises := [o.spec.flavorref, p.spec.flavorref], [raisetype];
    } else {
      refs, raises := [o.spec.flavorref], [];
    }
  }

  lemma OneAlarmClimbs(list: seq<Flavors.Flavor>, o: Object, looks: Looks, message: string, t: Trail)
    returns (refs: seq<string>, raises: seq<string>)
    requires Shows(looks, list) && Reactions(looks, message, o, t)
    ensures Ascent.Climb(list, o.spec.availabilityzone, refs, raises) && |raises| == Finds([t])
    ensures refs[0] == o.spec.flavorref && refs[|refs| - 1] == t.m.spec.flavorref
  {
    var d, zones := AfterDisc(message, o), o.spec.availabilityzone;
    var refs1, raises1 := FoundStep(list, looks.cpu, Contains(message, CPU_ALARM), d, t.c, "cpu", t.cpu);
    var refs2, raises2 := FoundStep(list, looks.mem, ComesToMem(looks, message), t.c, t.m, "mem", t.mem);
    Ascent.ClimbConcat(list, zones, refs1, raises1, refs2, raises2);
    refs, raises := refs1 + refs2[1..], raises1 + raises2;
  }

  /** Alarm after alarm shows one catalogue and reacts to the object, the flavour of which is what the alarm
      before has left. */
  ghost predicate Alarmed(list: seq<Flavors.Flavor>, os: seq<Object>, looks: seq<Looks>, messages: seq<string>,
    ts: seq<Trail>)
  {
    && |os| == |looks| == |messages| == |ts| > 0
    && (forall i | 0 <= i < |ts| :: Shows(looks[i], list) && Reactions(looks[i], messages[i], os[i], ts[i]))
    && (forall i | 0 <= i < |ts| - 1 ::
          && os[i + 1].spec.flavorref == ts[i].m.spec.flavorref
          && os[i + 1].spec.availabilityzone == os[i].spec.availabilityzone)
  }

  lemma AlarmedRest(list: seq<Flavors.Flavor>, os: seq<Object>, looks: seq<Looks>, messages: seq<string>,
    ts: seq<Trail>)
    requires Alarmed(list, os, looks, messages, ts) && |ts| > 1
    ensures Alarmed(list, os[1..], looks[1..], messages[1..], ts[1..])
    ensures os[1].spec.flavorref == ts[0].m.spec.flavorref
    ensures os[1].spec.availabilityzone == os[0].spec.availabilityzone
  {
    assert os[0 + 1].spec.flavorref == ts[0].m.spec.flavorref;
  }

  /** Successive alarms at an object, each of which finds the flavour that the one before left: the flavours
      make a climb through the catalogue, with a step for each flavour found. */
  lemma {:induction false} AlarmsClimb(list: seq<Flavors.Flavor>, os: seq<Object>, looks: seq<Looks>,
    messages: seq<string>, ts: seq<Trail>) returns (refs: seq<string>, raises: seq<string>)
    requires Alarmed(list, os, looks, messages, ts)
    ensures Ascent.Climb(list, os[0].spec.availabilityzone, refs, raises) && |raises| == Finds(ts)
    ensures refs[0] == os[0].spec.flavorref && refs[|refs| - 1] == ts[|ts| - 1].m.spec.flavorref
    decreases |ts|
  {
    refs, raises := OneAlarmClimbs(list, os[0], looks[0], messages[0], ts[0]);
    if |ts| > 1 {
      AlarmedRest(list, os, looks, messages, ts);
      var refs2, raises2 := AlarmsClimb(list, os[1..], looks[1..], messages[1..], ts[1..]);
      Ascent.ClimbConcat(list, os[0].spec.availabilityzone, refs, raises, refs2, raises2);
      refs, raises := refs + refs2[1..], raises + raises2;
    }
  }

  /** Alarms in any mixture find a bigger flavour at most as often as the catalogue has extents, where no
      answer to a cpu alarm has less RAM. */
  lemma AlarmsSettle(list: seq<Flavors.Flavor>, os: seq<Object>, looks: seq<Looks>, messages: seq<string>,
    ts: seq<Trail>)
    requires Alarmed(list, os, looks, messages, ts)
    requires NextBigger.UniqueCodes(list)
    requires Ascent.KeepsRam(list, os[0].spec.availabilityzone, os[0].spec.flavorref)
    ensures Finds(ts) <= |Ascent.Extents(list)|
  {
    var refs, raises := AlarmsClimb(list, os, looks, messages, ts);
    Ascent.KeptRamStops(list, os[0].spec.availabilityzone, os[0].spec.flavorref, refs, raises);
  }
}
