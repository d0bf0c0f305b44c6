/** What one attempt at an event does to the cloud and the store, as relations between before and after. */
module Steps {
  import opened Common
  import opened Types
  import opened Cloud
  import opened Plans
  import opened Names

  predicate SeenIn(c: Cloud, name: string, seen: Instance) {
    seen.name == name && exists x | x in c.live :: c.live[x] == seen
  }

  predicate NotListed(c: Cloud, name: string) {
    forall x | x in c.live :: c.live[x].name != name
  }

  /** The object's instance cannot be read, by id or by name. */
  predicate Lost(c: Cloud, o: Object) {
    o.status.id !in c.live || NotListed(c, NameOf(o))
  }

  /** What the refresh of a save makes of an object: the first address of the instance that it listed, or
      none, and its state unless that is empty; without a listing nothing. */
  predicate TakesOver(o: Object, p: Object, e: Entry) {
    match e.listed
    case None => p == o
    case Some(l) =>
      && e.sent == Some(p)
      && p == o.(status := o.status.(
                   ip := if |l.privateIps| > 0 then l.privateIps[0] else "0.0.0.0",
                   status := if l.status != "" then l.status else o.status.status))
  }

  function WithId(o: Object, id: string): Object {
    o.(status := o.status.(id := id))
  }

  /** An instance for `o` has been added under a fresh id, where none had its name. */
  ghost predicate NewInstance(c: Cloud, c': Cloud, o: Object, id: string) {
    && id != "" && id !in c.names
    && NotListed(c, NameOf(o))
    && c' == Launched(c, id, InstanceOf(o))
  }

  /** At most one instance is gone, and only one that has a completed backup. */
  ghost predicate Deleted(c: Cloud, c': Cloud, id: string, done: bool) {
    && c'.names == c.names
    && (c'.backups == c.backups || (id != "" && c'.backups == c.backups + {id}))
    && (c'.live == c.live || (id in c'.backups && c'.live == c.live - {id}))
    && (done ==> id != "" && id !in c'.live && id in c'.backups)
  }

  type Store = map<Key, Object>

  /** Provisioning is wanted on an engine for which the operator has none. */
  predicate Unsupported(o: Object, sql: bool) {
    sql && !o.status.logs && o.spec.datastoretype != "MySQL"
  }

  /** What all attempts at an update event share besides its object: the object it replaces, whether
      the lists of databases and users have the same content, whether provisioning is wanted (their
      lengths or pointers differ), and the restore time as parsed. */
  datatype Change = Change(was: Object, sameLists: bool, sql: bool, at: Option<int>) {
    /** `HasChanged` fails: specification and state are both different. */
    predicate Skips(p: Object) {
      !(was.spec == p.spec && sameLists) && was.status != p.status
    }

    /** An attempt that is not skipped ends with an error whatever is answered. */
    predicate Hopeless(o: Object) {
      Unparsable(o, at) || Unsupported(o, sql)
    }
  }

  /** The refresh at the start of an attempt, and no other call. */
  predicate OneSave(es: seq<Entry>, o: Object) {
    |es| == 1 && es[0].call == Save(TriggersOf(o)) && Honest(es[0])
  }

  /** One attempt at an update event whose object is `o` before and `p` after; `seen` is the instance
      that the attempt compared with, if it came so far, and `es` the record of its calls. */
  ghost predicate UpdateStep(ch: Change, c: Cloud, c': Cloud, s: Store, s': Store, o: Object, p: Object,
    seen: Option<Instance>, es: seq<Entry>, r: Outcome)
  {
    && Kept(o, p) && Touched(s, s', o)
    && |es| > 0 && TakesOver(o, p, es[0])
    && (es[0].listed.Some? ==> SeenIn(c, NameOf(o), es[0].listed.value.inst))
    && match seen
       case None =>
         c' == c && OneSave(es, o) && (r.Ok? ==> es[0].ok && ch.Skips(p))
       case Some(inst) =>
         && !ch.Skips(p) && p.status.status == "ACTIVE" && o.status.id != "" && SeenIn(c, NameOf(o), inst)
         && Along([], es, UpdateCalls(o, inst, ch.at, ch.sql), r)
         && Advanced(c, c', Jobs(o, inst), Finished(es))
         && (r.Ok? ==> !ch.Hopeless(o))
  }

  /** One attempt at an add event; `made` is the id of the new instance, or empty. Its errors are dropped. */
  ghost predicate CreateStep(
    c: Cloud, c': Cloud, s: Store, s': Store, o: Object, p: Object, made: string, es: seq<Entry>)
  {
    && Along([], es, CreatePlan(o, made), Err)
    && p == o.(status := p.status) && (p.status.id == o.status.id || p.status.id == made)
    && if made == "" then c' == c && s' == s && p == o
       else
         && NewInstance(c, c', o, made) && Touched(s, s', WithId(o, made))
         && made in c'.live && c'.live[made].name == o.namespace + "_" + o.name
         && c'.live[made].volume == o.spec.volumesize && c'.live[made].flavor == o.spec.flavorref
         && (c'.live[made].ha <==> o.spec.hamode == "Ha")
  }

  datatype Kind = Adding | Updating(change: Change) | Deleting

  /** An update event in which an object replaces itself. */
  predicate IsResync(kind: Kind, o: Object) {
    kind.Updating? && kind.change.was == o && kind.change.sameLists && !kind.change.sql
  }

  /** One attempt at an event of any kind. */
  ghost predicate EventStep(kind: Kind, c: Cloud, c': Cloud, s: Store, s': Store, o: Object, p: Object,
    seen: Option<Instance>, made: string, es: seq<Entry>, r: Outcome)
  {
    match kind
    case Adding => CreateStep(c, c', s, s', o, p, made, es)
    case Updating(ch) => UpdateStep(ch, c, c', s, s', o, p, seen, es, r)
    case Deleting => Along([], es, DeletePlan(o), r) && Deleted(c, c', o.status.id, r.Ok?) && s' == s && p == o
  }

  // ----- the jobs of an attempt, from its record

  lemma FinishedSplit(t0: seq<Entry>, t1: seq<Entry>, t2: seq<Entry>)
    requires t0 <= t1 <= t2
    ensures Finished(t2[|t0|..]) == Finished(t1[|t0|..]) + Finished(t2[|t1|..])
  {
    assert t2[|t0|..] == t1[|t0|..] + t2[|t1|..];
  }

  lemma FinishedPlanned(t0: seq<Entry>, t1: seq<Entry>, plan: seq<Call>, r: Outcome, job: Job)
    requires Along(t0, t1, plan, r) && job in Finished(t1[|t0|..])
    ensures Await(job) in plan
  {
    var es := t1[|t0|..];
    var e :| e in es && e.call == Await(job);
    var i :| 0 <= i < |es| && es[i] == e;
    assert t1[|t0| + i] == e;
  }

  lemma FinishedAwaited(es: seq<Entry>, plan: seq<Call>, i: nat)
    requires Along([], es, plan, Ok) && i < |plan| && plan[i].Await?
    ensures plan[i].job in Finished(es)
  {
    assert es[i].ok && es[i] in es;
  }

  /** The enlarge stage is through: there was nothing to do, or the wait for its job went well. */
  predicate EnlargePassed(o: Object, seen: Instance, es: seq<Entry>) {
    seen.volume < o.spec.volumesize ==> Enlargement(o.status.id, o.spec.volumesize) in Finished(es)
  }

  predicate ResizePassed(o: Object, seen: Instance, es: seq<Entry>) {
    seen.flavor != o.spec.flavorref ==> Resizing(o.status.id, o.spec.flavorref) in Finished(es)
  }

  predicate Scaled(o: Object, seen: Instance, es: seq<Entry>) {
    EnlargePassed(o, seen, es) && ResizePassed(o, seen, es)
  }

  /** A successful attempt is through with both stages. */
  lemma DoneIsScaled(o: Object, seen: Instance, at: Option<int>, sql: bool, es: seq<Entry>)
    requires Along([], es, UpdateCalls(o, seen, at, sql), Ok)
    ensures Scaled(o, seen, es)
  {
    var plan, n := UpdateCalls(o, seen, at, sql), |EnlargePlan(o, seen.volume)|;
    ScaleAwaits(o, seen, at, sql);
    if seen.volume < o.spec.volumesize {
      FinishedAwaited(es, plan, 2);
    }
    if seen.flavor != o.spec.flavorref {
      FinishedAwaited(es, plan, n + 2);
    }
  }

  lemma ScaleAwaits(o: Object, seen: Instance, at: Option<int>, sql: bool)
    ensures var plan, n := UpdateCalls(o, seen, at, sql), |EnlargePlan(o, seen.volume)|;
            && (seen.volume < o.spec.volumesize ==>
                  |plan| > 2 && plan[2] == Await(Enlargement(o.status.id, o.spec.volumesize)))
            && (seen.flavor != o.spec.flavorref ==>
                  |plan| > n + 2 && plan[n + 2] == Await(Resizing(o.status.id, o.spec.flavorref)))
  {
    var plan, n := UpdateCalls(o, seen, at, sql), |EnlargePlan(o, seen.volume)|;
    if seen.volume < o.spec.volumesize {
      assert plan[2] == EnlargePlan(o, seen.volume)[1];
    }
    if seen.flavor != o.spec.flavorref {
      assert plan[n + 2] == ScalePlan(o, seen)[n + 1] == ResizePlan(o, seen.flavor)[1];
    }
  }

  lemma {:induction false} AppliedConcat(c: Cloud, p: seq<Job>, q: seq<Job>)
    ensures Applied(c, p + q) == Applied(Applied(c, p), q)
    decreases |p|
  {
    if p == [] {
      assert p + q == q;
    } else {
      assert (p + q)[1..] == p[1..] + q;
      AppliedConcat(Effect(c, p[0]), p[1..], q);
    }
  }

  /** Running a job twice is running it once. */
  lemma EffectTwice(c: Cloud, job: Job)
    ensures Effect(Effect(c, job), job) == Effect(c, job)
  {
  }

  lemma OneJob(c: Cloud, jobs: seq<Job>)
    requires |jobs| <= 1
    ensures Applied(c, jobs) == if jobs == [] then c else Effect(c, jobs[0])
  {
  }

  lemma AdvancedAll(c: Cloud, jobs: seq<Job>, finished: set<Job>)
    ensures Advanced(c, Applied(c, jobs), jobs, finished)
  {
    assert jobs[..|jobs|] == jobs;
  }

  /** The job has run, or it has neither run nor been waited for. */
  ghost predicate MayHaveRun(c: Cloud, c': Cloud, jobs: seq<Job>, finished: set<Job>) {
    c' == Applied(c, jobs) || (c' == c && forall job | job in jobs :: job !in finished)
  }

  lemma AdvancedFirst(c: Cloud, c': Cloud, o: Object, seen: Instance, finished: set<Job>)
    requires MayHaveRun(c, c', EnlargeJobs(o, seen), finished)
    requires forall job | job in ResizeJobs(o, seen) :: job !in finished
    ensures Advanced(c, c', Jobs(o, seen), finished)
  {
    var first, jobs := EnlargeJobs(o, seen), Jobs(o, seen);
    assert jobs == first + ResizeJobs(o, seen);
    assert jobs[..0] == [] && jobs[..|first|] == first;
    var k := if c' == Applied(c, first) then |first| else 0;
    assert c' == Applied(c, jobs[..k]);
  }

  lemma AdvancedBoth(c: Cloud, c': Cloud, o: Object, seen: Instance, finished: set<Job>)
    requires MayHaveRun(Applied(c, EnlargeJobs(o, seen)), c', ResizeJobs(o, seen), finished)
    ensures Advanced(c, c', Jobs(o, seen), finished)
    ensures c' == Applied(Applied(c, EnlargeJobs(o, seen)), ResizeJobs(o, seen)) ==> c' == Applied(c, Jobs(o, seen))
  {
    var first, second, jobs := EnlargeJobs(o, seen), ResizeJobs(o, seen), Jobs(o, seen);
    assert jobs == first + second;
    assert jobs[..|first|] == first && jobs[..|jobs|] == jobs;
    AppliedConcat(c, first, second);
  }

  lemma NotPlanned(t0: seq<Entry>, t1: seq<Entry>, o: Object, seen: Instance, r: Outcome)
    requires Along(t0, t1, EnlargePlan(o, seen.volume), r)
    ensures forall job | job in ResizeJobs(o, seen) :: job !in Finished(t1[|t0|..])
  {
    forall job | job in ResizeJobs(o, seen)
      ensures job !in Finished(t1[|t0|..])
    {
      if job in Finished(t1[|t0|..]) {
        FinishedPlanned(t0, t1, EnlargePlan(o, seen.volume), r, job);
      }
    }
  }

  /** The two scale stages one after the other. */
  lemma ScaleAdvanced(c0: Cloud, c1: Cloud, c2: Cloud, t0: seq<Entry>, t1: seq<Entry>, t2: seq<Entry>,
    o: Object, seen: Instance, r1: Outcome)
    requires Along(t0, t1, EnlargePlan(o, seen.volume), r1) && t1 <= t2
    requires MayHaveRun(c0, c1, EnlargeJobs(o, seen), Finished(t1[|t0|..]))
    requires r1.Ok? ==> c1 == Applied(c0, EnlargeJobs(o, seen))
    requires if r1.Ok? then MayHaveRun(c1, c2, ResizeJobs(o, seen), Finished(t2[|t1|..])) else t2 == t1 && c2 == c1
    ensures Advanced(c0, c2, Jobs(o, seen), Finished(t2[|t0|..]))
    ensures r1.Ok? && c2 == Applied(c1, ResizeJobs(o, seen)) ==> c2 == Applied(c0, Jobs(o, seen))
  {
    NotPlanned(t0, t1, o, seen, r1);
    FinishedSplit(t0, t1, t2);
    if r1.Ok? {
      AdvancedBoth(c0, c2, o, seen, Finished(t2[|t0|..]));
    } else {
      AdvancedFirst(c0, c2, o, seen, Finished(t2[|t0|..]));
    }
  }

  // ----- coherence, and the effect of an attempt under it

  /** At most one live instance per name, and every live instance known under the name it was issued for. */
  ghost predicate Coherent(c: Cloud) {
    && (forall x | x in c.live :: x in c.names && c.live[x].name == c.names[x])
    && (forall x, y | x in c.live && y in c.live && c.live[x].name == c.live[y].name :: x == y)
  }

  /** The id in the status, if there is one, was issued for this object. */
  predicate IdSound(c: Cloud, o: Object) {
    o.status.id != "" ==> o.status.id in c.names && c.names[o.status.id] == NameOf(o)
  }

  /** What is read by name is what is written by id. */
  lemma ReadsHitWrites(c: Cloud, o: Object, seen: Instance)
    requires Coherent(c) && IdSound(c, o) && o.status.id in c.live && o.status.id != ""
    requires SeenIn(c, NameOf(o), seen)
    ensures seen == c.live[o.status.id]
  {
  }

  function Max(a: int, b: int): int {
    if a < b then b else a
  }

  lemma AdvancedCases(c: Cloud, c': Cloud, o: Object, seen: Instance, finished: set<Job>)
    requires Advanced(c, c', Jobs(o, seen), finished)
    ensures var e, z := EnlargeJobs(o, seen), ResizeJobs(o, seen);
            || (c' == c && forall job | job in Jobs(o, seen) :: job !in finished)
            || (c' == Applied(c, e) && forall job | job in z :: job !in finished)
            || c' == Applied(Applied(c, e), z)
  {
    var e, z, jobs := EnlargeJobs(o, seen), ResizeJobs(o, seen), Jobs(o, seen);
    var k :| 0 <= k <= |jobs| && c' == Applied(c, jobs[..k]) && forall i | k <= i < |jobs| :: jobs[i] !in finished;
    assert jobs == e + z;
    if k == |jobs| {
      assert jobs[..k] == jobs;
      AppliedConcat(c, e, z);
    } else if k == 0 {
      assert jobs[..k] == [];
    } else {
      assert jobs[..k] == e && jobs[k..] == z;
    }
  }

  /** The instance after an attempt: each stage has left it or brought it in line, the latter if the
      wait for its job was answered without an error. */
  lemma ScaleEffect(c: Cloud, c': Cloud, o: Object, seen: Instance, es: seq<Entry>)
    requires Advanced(c, c', Jobs(o, seen), Finished(es))
    ensures c'.names == c.names && c'.backups == c.backups && c'.live.Keys == c.live.Keys
    ensures forall x | x in c.live && x != o.status.id :: c'.live[x] == c.live[x]
    ensures o.status.id in c.live ==>
              var a, b := c.live[o.status.id], c'.live[o.status.id];
              && b == a.(volume := b.volume, flavor := b.flavor)
              && (b.volume == a.volume || (seen.volume < o.spec.volumesize && b.volume == o.spec.volumesize))
              && (b.flavor == a.flavor || b.flavor == o.spec.flavorref)
              && (EnlargePassed(o, seen, es) && seen.volume < o.spec.volumesize ==> b.volume == o.spec.volumesize)
              && (ResizePassed(o, seen, es) && seen.flavor != o.spec.flavorref ==> b.flavor == o.spec.flavorref)
  {
    AdvancedCases(c, c', o, seen, Finished(es));
    var e, z := EnlargeJobs(o, seen), ResizeJobs(o, seen);
    OneJob(c, e);
    OneJob(Applied(c, e), z);
  }

  /** Under coherence an attempt leaves the volume or raises it to the one asked for; each stage that it
      is through with has brought the instance in line, however the attempt ended. */
  lemma UpdateEffect(ch: Change, c: Cloud, c': Cloud, s: Store, s': Store, o: Object, p: Object,
    seen: Option<Instance>, es: seq<Entry>, r: Outcome)
    requires UpdateStep(ch, c, c', s, s', o, p, seen, es, r) && Coherent(c) && IdSound(c, o)
    ensures Coherent(c') && c'.names == c.names && c'.backups == c.backups && c'.live.Keys == c.live.Keys
    ensures forall x | x in c.live && x != o.status.id :: c'.live[x] == c.live[x]
    ensures o.status.id in c.live ==>
              var a, b := c.live[o.status.id], c'.live[o.status.id];
              && (b.volume == a.volume || b.volume == Max(a.volume, o.spec.volumesize))
              && (b.flavor == a.flavor || b.flavor == o.spec.flavorref)
              && (seen.Some? && EnlargePassed(o, seen.value, es) ==> b.volume == Max(a.volume, o.spec.volumesize))
              && (seen.Some? && ResizePassed(o, seen.value, es) ==> b.flavor == o.spec.flavorref)
  {
    if seen.Some? {
      ScaleEffect(c, c', o, seen.value, es);
      if o.status.id in c.live {
        ReadsHitWrites(c, o, seen.value);
      }
    }
  }
}
