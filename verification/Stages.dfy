/** The state around the controller as a value, and what a stage of an attempt may make of it. */
module Stages {
  import opened Common
  import opened Types
  import opened Cloud
  import opened Plans
  import opened Steps
  import Sql
  import Alarms

  /** `errors` counts the error answers of all services. */
  datatype World = World(cloud: Cloud, store: Store, trace: seq<Entry>, errors: nat, nodeless: nat,
    sql: Sql.Data, alarms: Alarms.Data)

  function NewEntries(w0: World, w1: World): seq<Entry>
    requires |w0.trace| <= |w1.trace|
  {
    w1.trace[|w0.trace|..]
  }

  /** Part of an attempt at an update of `o`: it makes the calls of its plan, stores nothing but versions
      of `o`, and has a reason to end otherwise than well. `err` and `panic` are reasons besides an error
      answer and a lost instance. */
  ghost predicate Stage(w0: World, w1: World, o: Object, plan: seq<Call>, r: Outcome, err: bool, panic: bool) {
    && Along(w0.trace, w1.trace, plan, r)
    && Touched(w0.store, w1.store, o)
    && w0.errors <= w1.errors && w0.nodeless <= w1.nodeless
    && (r.Err? ==> w0.errors < w1.errors || err)
    && (r.Panic? ==> Lost(w1.cloud, o) || panic)
  }

  /** Two stages one after the other, the second only if the first succeeded. */
  lemma StageThen(w0: World, w1: World, w2: World, o: Object, o1: Object, p: seq<Call>, q: seq<Call>,
    r1: Outcome, r2: Outcome, err: bool, panic: bool)
    requires Stage(w0, w1, o, p, r1, err, panic) && Derived(o, o1)
    requires r1.Ok? || Broken(w0.trace, w1.trace, p) || !StartsWithJob(q)
    requires if r1.Ok? then Stage(w1, w2, o1, q, r2, err, panic) else w2 == w1 && r2 == r1
    ensures Stage(w0, w2, o, p + q, r2, err, panic)
    ensures (if r1.Ok? then Broken(w1.trace, w2.trace, q) else Broken(w0.trace, w1.trace, p)) ==>
              Broken(w0.trace, w2.trace, p + q)
  {
    AlongThen(w0.trace, w1.trace, w2.trace, p, q, r1, r2);
    if r1.Ok? {
      TouchedTwice(w0.store, w1.store, w2.store, o, o1);
    }
  }

  /** A look at the instance that goes well does not count. */
  lemma StageAfterLook(w0: World, w1: World, w2: World, o: Object, o1: Object, plan: seq<Call>, r: Outcome,
    err: bool, panic: bool)
    requires w1 == w0.(nodeless := w1.nodeless) && w0.nodeless <= w1.nodeless && Derived(o, o1)
    requires Stage(w1, w2, o1, plan, r, err, panic)
    ensures Stage(w0, w2, o, plan, r, err, panic)
  {
  }

  /** A look that does not go well ends the stage before its first call. */
  lemma StageWithoutLook(w0: World, w1: World, o: Object, plan: seq<Call>, r: Outcome, panic: bool)
    requires w1 == w0.(errors := w1.errors, nodeless := w1.nodeless)
    requires w0.errors <= w1.errors && w0.nodeless <= w1.nodeless
    requires !r.Ok? && (r.Err? ==> w0.errors < w1.errors) && (r.Panic? ==> Lost(w1.cloud, o) || panic)
    requires !StartsWithJob(plan)
    ensures Stage(w0, w1, o, plan, r, false, panic)
  {
  }

  // ----- reasons of a whole attempt

  /** The attempt will come to the creation of alarms. */
  predicate WantsAlarms(o: Object) {
    o.spec.endpoint != "" && !o.status.autopilot && !o.status.logs
  }

  /** Reasons for an error that lie in the object, or in a disc alarm of its name that exists already. */
  predicate Refused(o: Object, at: Option<int>, sql: bool, alarms: Alarms.Data) {
    || Unparsable(o, at)
    || Unsupported(o, sql)
    || (WantsAlarms(o) && Alarms.HasRule(alarms.alarms, o.namespace, o.name, Alarms.DISC))
  }

  /** Provisioning would go over a list of users that is not there. */
  predicate Unlisted(o: Object, sql: bool, entries: Sql.Entries) {
    sql && !o.status.logs && o.spec.datastoretype == "MySQL" && entries.users.None?
  }

  /** Reasons for a panic: a missing list of users, or an instance that was read without a node. */
  predicate Stumbles(w0: World, w1: World, o: Object, sql: bool, entries: Sql.Entries) {
    || Unlisted(o, sql, entries)
    || (WantsAlarms(o) && w0.nodeless < w1.nodeless)
  }

  /** What an attempt does to database and alarms. */
  ghost predicate Services(w0: World, w1: World, o: Object, sql: bool, entries: Sql.Entries, r: Outcome) {
    && Sql.SqlStep(w0.sql, w1.sql, o.spec.datastoretype, entries, sql && !o.status.logs, r)
    && Alarms.AlarmStep(w0.alarms, w1.alarms, o.namespace, o.name, o.spec.endpoint, WantsAlarms(o), r)
  }

  lemma NoServices(w0: World, w1: World, o: Object, sql: bool, entries: Sql.Entries, r: Outcome)
    requires w1.sql == w0.sql && w1.alarms == w0.alarms && !r.Ok?
    ensures Services(w0, w1, o, sql, entries, r)
  {
    Sql.NothingProvisioned(w0.sql, entries);
  }

  /** An attempt, or the part of it from some stage on. */
  ghost predicate Attempted(w0: World, w1: World, o: Object, plan: seq<Call>, at: Option<int>, sql: bool,
    entries: Sql.Entries, r: Outcome)
  {
    && Stage(w0, w1, o, plan, r, Refused(o, at, sql, w0.alarms), Stumbles(w0, w1, o, sql, entries))
    && Services(w0, w1, o, sql, entries, r)
    && (r.Ok? ==> !Unparsable(o, at) && !Unsupported(o, sql))
  }

  /** A stage without effect on database and alarms, then the rest of the attempt on the object that it
      leaves. */
  lemma ThenAttempted(w0: World, w1: World, w2: World, o: Object, o1: Object, p: seq<Call>, q: seq<Call>,
    at: Option<int>, at1: Option<int>, sql: bool, entries: Sql.Entries, r1: Outcome, r2: Outcome)
    requires Stage(w0, w1, o, p, r1, Unparsable(o, at), false) && Derived(o, o1) && !StartsWithJob(q)
    requires w1.sql == w0.sql && w1.alarms == w0.alarms
    requires r1.Ok? ==>
               && o1.status.logs == o.status.logs && o1.status.autopilot == o.status.autopilot
               && (if Unparsable(o, at) then Unparsable(o1, at1) else !Unparsable(o1, at1))
    requires if r1.Ok? then Attempted(w1, w2, o1, q, at1, sql, entries, r2) else w2 == w1 && r2 == r1
    ensures Attempted(w0, w2, o, p + q, at, sql, entries, r2)
  {
    var err, panic := Refused(o, at, sql, w0.alarms), Stumbles(w0, w2, o, sql, entries);
    assert Stage(w0, w1, o, p, r1, err, panic);
    if r1.Ok? {
      assert Stage(w1, w2, o1, q, r2, err, panic);
    } else {
      NoServices(w0, w2, o, sql, entries, r2);
    }
    StageThen(w0, w1, w2, o, o1, p, q, r1, r2, err, panic);
  }

  /** Restart and restore, then logs, users and alarms. */
  lemma TriggersThen(w0: World, w1: World, w2: World, o: Object, o1: Object, at: Option<int>, sql: bool,
    entries: Sql.Entries, r1: Outcome, r2: Outcome)
    requires Stage(w0, w1, o, TriggerPlan(o, at), r1, Unparsable(o, at), false) && Derived(o, o1)
    requires w1.sql == w0.sql && w1.alarms == w0.alarms
    requires r1.Ok? ==> Kept(AfterTriggers(o), o1) && !Unparsable(o, at)
    requires if r1.Ok? then Attempted(w1, w2, o1, FinalPlan(o1, sql), None, sql, entries, r2)
             else w2 == w1 && r2 == r1
    ensures Attempted(w0, w2, o, RestPlan(o, at, sql), at, sql, entries, r2)
  {
    var p, q, plan := TriggerPlan(o, at), TailPlan(o, at, sql), RestPlan(o, at, sql);
    TailStarts(o, at, sql);
    assert r1.Ok? ==> FinalPlan(o1, sql) == q;
    ThenAttempted(w0, w1, w2, o, o1, p, q, at, None, sql, entries, r1, r2);
    assert plan == p + q;
  }

  /** One attempt at an update of `o`; without `seen` it ended before any call but the look at the instance. */
  ghost predicate Updated(w0: World, w1: World, o: Object, at: Option<int>, sql: bool, entries: Sql.Entries,
    seen: Option<Instance>, r: Outcome)
  {
    match seen
    case None =>
      && w1 == w0.(errors := w1.errors, nodeless := w1.nodeless) && !r.Ok?
      && w0.errors <= w1.errors && w0.nodeless <= w1.nodeless
      && (r.Err? ==> w0.errors < w1.errors || o.status.id == "")
      && (r.Panic? ==> Lost(w1.cloud, o))
    case Some(inst) =>
      && o.status.id != "" && SeenIn(w0.cloud, NameOf(o), inst)
      && Attempted(w0, w1, o, UpdatePlan(o, inst, at, sql), at, sql, entries, r)
      && Advanced(w0.cloud, w1.cloud, Jobs(o, inst), Finished(NewEntries(w0, w1)))
  }

  /** Why an attempt at an update event may end otherwise than well; without any of these it succeeds. */
  ghost predicate Excused(w0: World, w1: World, ch: Change, o: Object, p: Object, entries: Sql.Entries, r: Outcome) {
    && (r.Err? ==>
          || w0.errors < w1.errors
          || p.status.status != "ACTIVE" || o.status.id == "" || Refused(o, ch.at, ch.sql, w0.alarms))
    && (r.Panic? ==> Lost(w1.cloud, o) || Stumbles(w0, w1, o, ch.sql, entries))
  }

  /** What a deletion does to the alarms: nothing unless the autopilot is on. */
  ghost predicate AlarmsDeleted(w0: World, w1: World, o: Object, r: Outcome) {
    && (!o.status.autopilot ==> w1.alarms == w0.alarms)
    && (w1.alarms == w0.alarms || Alarms.Purging(w0.alarms, w1.alarms, NameOf(o)))
    && (o.status.autopilot && r.Ok? ==> Alarms.Purging(w0.alarms, w1.alarms, NameOf(o)))
  }

  /** One attempt at an event of any kind, with all it does. */
  ghost predicate Processed(w0: World, w1: World, kind: Kind, o: Object, p: Object, entries: Sql.Entries,
    seen: Option<Instance>, made: string, r: Outcome)
  {
    && w0.trace <= w1.trace
    && EventStep(kind, w0.cloud, w1.cloud, w0.store, w1.store, o, p, seen, made, NewEntries(w0, w1), r)
    && match kind
       case Adding =>
         w1.sql == w0.sql && w1.alarms == w0.alarms && (r.Err? ==> w0.errors < w1.errors && w1.trace == w0.trace)
       case Deleting =>
         && w1.sql == w0.sql && AlarmsDeleted(w0, w1, o, r)
         && (!r.Ok? ==> w0.errors < w1.errors || o.status.id == "")
       case Updating(ch) =>
         && Excused(w0, w1, ch, o, p, entries, r)
         && if seen.None? then w1.sql == w0.sql && w1.alarms == w0.alarms
            else Services(w0, w1, o, ch.sql, entries, r)
  }

  /** The scale stages, then the rest. */
  lemma ScaleThen(w0: World, w1: World, w2: World, o: Object, o1: Object, at: Option<int>, sql: bool,
    entries: Sql.Entries, seen: Instance, r1: Outcome, r2: Outcome)
    requires o.status.id != "" && SeenIn(w0.cloud, NameOf(o), seen) && Kept(o, o1)
    requires Stage(w0, w1, o, ScalePlan(o, seen), r1, false, false) && w1.sql == w0.sql && w1.alarms == w0.alarms
    requires Advanced(w0.cloud, w1.cloud, Jobs(o, seen), Finished(NewEntries(w0, w1)))
    requires if r1.Ok? then
               && w1.cloud == Applied(w0.cloud, Jobs(o, seen)) && w2.cloud == w1.cloud
               && Attempted(w1, w2, o1, RestPlan(o1, at, sql), at, sql, entries, r2)
             else w2 == w1 && r2 == r1
    ensures Updated(w0, w2, o, at, sql, entries, Some(seen), r2)
  {
    RestPlanKept(o, o1, at, sql);
    RestStarts(o, at, sql);
    var p, q, plan := ScalePlan(o, seen), RestPlan(o, at, sql), UpdatePlan(o, seen, at, sql);
    assert plan == p + q;
    ThenAttempted(w0, w1, w2, o, o1, p, q, at, at, sql, entries, r1, r2);
    AdvancedAll(w0.cloud, Jobs(o, seen), Finished(NewEntries(w0, w2)));
  }

  lemma UpdateCallsKept(o: Object, p: Object, seen: Instance, at: Option<int>, sql: bool)
    requires Kept(o, p)
    ensures [Save(TriggersOf(o))] + UpdatePlan(p, seen, at, sql) == UpdateCalls(o, seen, at, sql)
    ensures Jobs(p, seen) == Jobs(o, seen)
  {
    RestPlanKept(o, p, at, sql);
  }

  lemma SaveFinishesNothing(t0: seq<Entry>, t1: seq<Entry>, o: Object, r: Outcome)
    requires Along(t0, t1, [Save(TriggersOf(o))], r)
    ensures Finished(t1[|t0|..]) == {}
  {
    if job :| job in Finished(t1[|t0|..]) {
      FinishedPlanned(t0, t1, [Save(TriggersOf(o))], r, job);
    }
  }

  /** The refresh and then an attempt that saw the instance: record, cloud and store. */
  lemma RefreshStep(w0: World, w1: World, w2: World, ch: Change, o: Object, p: Object, seen: Instance,
    r1: Outcome, r2: Outcome)
    requires Kept(o, p) && Along(w0.trace, w1.trace, [Save(TriggersOf(o))], r1) && r1.Ok?
    requires Along(w1.trace, w2.trace, UpdatePlan(p, seen, ch.at, ch.sql), r2)
    requires Advanced(w0.cloud, w2.cloud, Jobs(p, seen), Finished(w2.trace[|w1.trace|..]))
    ensures w0.trace <= w2.trace
    ensures Along([], NewEntries(w0, w2), UpdateCalls(o, seen, ch.at, ch.sql), r2)
    ensures Advanced(w0.cloud, w2.cloud, Jobs(o, seen), Finished(NewEntries(w0, w2)))
  {
    UpdateCallsKept(o, p, seen, ch.at, ch.sql);
    AlongThen(w0.trace, w1.trace, w2.trace, [Save(TriggersOf(o))], UpdatePlan(p, seen, ch.at, ch.sql), r1, r2);
    AlongFrom(w0.trace, w2.trace, UpdateCalls(o, seen, ch.at, ch.sql), r2);
    FinishedSplit(w0.trace, w1.trace, w2.trace);
    SaveFinishesNothing(w0.trace, w1.trace, o, r1);
  }

  lemma RefreshAlone(w0: World, w1: World, o: Object, r1: Outcome, r2: Outcome, e: Entry)
    requires Along(w0.trace, w1.trace, [Save(TriggersOf(o))], r1) && (r1.Ok? || r2 == r1)
    requires w1.trace == w0.trace + [e]
    ensures NewEntries(w0, w1) == [e] && OneSave([e], o)
    ensures r2.Ok? ==> e.ok
  {
    AlongFrom(w0.trace, w1.trace, [Save(TriggersOf(o))], r1);
  }

  /** The refresh has made the one entry `e`, and `p` of `o`. */
  ghost predicate Refreshing(w0: World, w1: World, o: Object, p: Object, e: Entry) {
    && w1.trace == w0.trace + [e] && TakesOver(o, p, e)
    && (e.listed.Some? ==> SeenIn(w0.cloud, NameOf(o), e.listed.value.inst))
  }

  lemma RefreshThenNothing(w0: World, w1: World, w2: World, ch: Change, o: Object, p: Object, entries: Sql.Entries,
    r1: Outcome, r2: Outcome, e: Entry)
    requires Kept(o, p) && Stage(w0, w1, o, [Save(TriggersOf(o))], r1, false, false)
    requires Refreshing(w0, w1, o, p, e)
    requires w2 == w1.(errors := w2.errors, nodeless := w2.nodeless)
    requires w1.cloud == w0.cloud && w1.sql == w0.sql && w1.alarms == w0.alarms
    requires r1.Ok? || r2 == r1
    requires r2.Ok? ==> ch.Skips(p)
    requires w1.errors <= w2.errors && w1.nodeless <= w2.nodeless
    requires r2.Err? ==> w0.errors < w2.errors || p.status.status != "ACTIVE" || o.status.id == ""
    requires r2.Panic? ==> Lost(w2.cloud, o)
    ensures Processed(w0, w2, Updating(ch), o, p, entries, None, "", r2)
  {
    RefreshAlone(w0, w1, o, r1, r2, e);
  }

  lemma RefreshThenAttempt(w0: World, w1: World, w2: World, ch: Change, o: Object, p: Object, entries: Sql.Entries,
    seen: Instance, r1: Outcome, r2: Outcome, e: Entry)
    requires Kept(o, p) && Stage(w0, w1, o, [Save(TriggersOf(o))], r1, false, false) && r1.Ok?
    requires Refreshing(w0, w1, o, p, e)
    requires w1.cloud == w0.cloud && w1.sql == w0.sql && w1.alarms == w0.alarms
    requires !ch.Skips(p) && p.status.status == "ACTIVE"
    requires Updated(w1, w2, p, ch.at, ch.sql, entries, Some(seen), r2)
    ensures Processed(w0, w2, Updating(ch), o, p, entries, Some(seen), "", r2)
  {
    RefreshServices(w0, w1, w2, ch, o, p, UpdatePlan(p, seen, ch.at, ch.sql), entries, r2);
    RefreshStep(w0, w1, w2, ch, o, p, seen, r1, r2);
    assert NewEntries(w0, w2)[0] == e;
    TouchedTwice(w0.store, w1.store, w2.store, o, p);
  }

  lemma RefreshServices(w0: World, w1: World, w2: World, ch: Change, o: Object, p: Object, plan: seq<Call>,
    entries: Sql.Entries, r: Outcome)
    requires Kept(o, p) && w0.errors <= w1.errors && w0.nodeless <= w1.nodeless
    requires w1.sql == w0.sql && w1.alarms == w0.alarms
    requires Attempted(w1, w2, p, plan, ch.at, ch.sql, entries, r)
    ensures Along(w1.trace, w2.trace, plan, r) && Touched(w1.store, w2.store, p)
    ensures Services(w0, w2, o, ch.sql, entries, r) && Excused(w0, w2, ch, o, p, entries, r)
    ensures r.Ok? ==> !ch.Hopeless(o)
  {
  }

  /** The refresh, followed by nothing, or by an attempt on copies of what it leaves. */
  lemma RefreshThen(w0: World, w1: World, w2: World, ch: Change, o: Object, p: Object, entries: Sql.Entries,
    seen: Option<Instance>, r1: Outcome, r2: Outcome, e: Entry)
    requires Kept(o, p) && Stage(w0, w1, o, [Save(TriggersOf(o))], r1, false, false)
    requires Refreshing(w0, w1, o, p, e)
    requires w1.cloud == w0.cloud && w1.sql == w0.sql && w1.alarms == w0.alarms
    requires if r1.Ok? && !ch.Skips(p) && p.status.status == "ACTIVE" then
               Updated(w1, w2, p, ch.at, ch.sql, entries, seen, r2)
             else
               w2 == w1 && seen.None? && (r2 == if !r1.Ok? || ch.Skips(p) then r1 else Err)
    ensures Processed(w0, w2, Updating(ch), o, p, entries, seen, "", r2)
  {
    match seen
    case None =>
      RefreshThenNothing(w0, w1, w2, ch, o, p, entries, r1, r2, e);
    case Some(inst) =>
      RefreshThenAttempt(w0, w1, w2, ch, o, p, entries, inst, r1, r2, e);
  }

  /** The deletion of the alarms, then that of the instance. */
  lemma DeleteThen(w0: World, w1: World, w2: World, o: Object, entries: Sql.Entries, r1: Outcome, r2: Outcome)
    requires Along(w0.trace, w1.trace, AlarmDeletePlan(o), r1)
    requires w1.cloud == w0.cloud && w1.store == w0.store && w1.sql == w0.sql && AlarmsDeleted(w0, w1, o, r1)
    requires r1.Ok? || w0.errors < w1.errors
    requires w0.errors <= w1.errors
    requires if r1.Ok? then
               && Along(w1.trace, w2.trace, InstanceDeletePlan(o), r2)
               && Deleted(w1.cloud, w2.cloud, o.status.id, r2.Ok?)
               && w2.store == w1.store && w2.sql == w1.sql && w2.alarms == w1.alarms
               && (r2.Ok? || w1.errors < w2.errors || o.status.id == "")
               && w1.errors <= w2.errors
             else w2 == w1 && r2 == r1
    ensures Processed(w0, w2, Deleting, o, o, entries, None, "", r2)
  {
    AlongThen(w0.trace, w1.trace, w2.trace, AlarmDeletePlan(o), InstanceDeletePlan(o), r1, r2);
    AlongFrom(w0.trace, w2.trace, DeletePlan(o), r2);
  }

  // ----- what follows for a whole attempt

  /** After a successful attempt that was not skipped, the users that the object lists are there if and only
      if provisioning was wanted and not cut off by a log job, or they were there before. */
  lemma RecreatedIff(w0: World, w1: World, ch: Change, o: Object, p: Object, entries: Sql.Entries,
    seen: Option<Instance>, made: string)
    requires Processed(w0, w1, Updating(ch), o, p, entries, seen, made, Ok) && seen.Some?
    ensures Sql.UsersPresent(w1.sql, entries) <==>
            (ch.sql && !o.status.logs) || Sql.UsersPresent(w0.sql, entries)
    ensures w1.sql.errors == w0.sql.errors ==>
              (Sql.SchemasPresent(w1.sql, entries) <==>
               (ch.sql && !o.status.logs) || Sql.SchemasPresent(w0.sql, entries))
  {
    Sql.ProvisionedIff(w0.sql, w1.sql, o.spec.datastoretype, entries, ch.sql && !o.status.logs);
  }

  /** An attempt at a resync never touches the database, whatever is missing there. */
  lemma ResyncRecreatesNothing(w0: World, w1: World, kind: Kind, o: Object, p: Object, entries: Sql.Entries,
    seen: Option<Instance>, made: string, r: Outcome)
    requires Processed(w0, w1, kind, o, p, entries, seen, made, r) && IsResync(kind, o)
    ensures w1.sql == w0.sql
  {
  }

  /** An attempt that is not skipped fails where users are wanted on another engine than MySQL, where the
      restore time cannot be read, and where alarms are asked for and a disc alarm of the object's name
      exists. */
  lemma RefusedFails(w0: World, w1: World, ch: Change, o: Object, p: Object, entries: Sql.Entries,
    seen: Option<Instance>, made: string, r: Outcome)
    requires Processed(w0, w1, Updating(ch), o, p, entries, seen, made, r) && seen.Some?
    requires || (ch.sql && !o.status.logs && o.spec.datastoretype != "MySQL")
             || (o.spec.backuprestoretime != "" && ch.at.None?)
             || (o.spec.endpoint != "" && !o.status.autopilot && !o.status.logs &&
                 exists i | i in w0.alarms.alarms ::
                   w0.alarms.alarms[i].name == o.namespace + "_" + o.name + "-disc-util")
    ensures !r.Ok?
  {
  }

  /** Where no answer is an error and nothing in object, instance and alarms stands against it, an attempt
      succeeds if the refresh lists the instance as active, whatever state was queued. */
  lemma QuietAttemptSucceeds(w0: World, w1: World, ch: Change, o: Object, p: Object, entries: Sql.Entries,
    seen: Option<Instance>, made: string, r: Outcome)
    requires Processed(w0, w1, Updating(ch), o, p, entries, seen, made, r)
    requires w1.errors == w0.errors && w1.nodeless == w0.nodeless
    requires o.status.id in w1.cloud.live && o.status.id != ""
    requires var l := NewEntries(w0, w1)[0].listed; l.Some? && l.value.status == "ACTIVE"
    requires exists x | x in w1.cloud.live :: w1.cloud.live[x].name == o.namespace + "_" + o.name
    requires ch.sql && !o.status.logs ==> o.spec.datastoretype == "MySQL" && entries.users.Some?
    requires o.spec.backuprestoretime != "" ==> ch.at.Some?
    requires forall i | i in w0.alarms.alarms ::
               w0.alarms.alarms[i].name != o.namespace + "_" + o.name + "-disc-util"
    ensures r.Ok?
  {
  }

  /** Alarms are created exactly where an endpoint is given, the autopilot is off and no log job cuts in; a
      successful attempt then leaves the webhook reachable, unless an answer was an error. */
  lemma AutopilotConnects(w0: World, w1: World, ch: Change, o: Object, p: Object, entries: Sql.Entries,
    seen: Option<Instance>, made: string, r: Outcome)
    requires Processed(w0, w1, Updating(ch), o, p, entries, seen, made, r) && seen.Some?
    ensures w1.alarms != w0.alarms ==> o.spec.endpoint != "" && !o.status.autopilot && !o.status.logs
    ensures r.Ok? && o.spec.endpoint != "" && !o.status.autopilot && !o.status.logs &&
            w1.alarms.errors == w0.alarms.errors ==>
              exists instance, urn ::
                Alarms.Connected(w0.alarms, w1.alarms, o.namespace, o.name, o.spec.endpoint, instance, urn)
  {
    if r.Ok? && o.spec.endpoint != "" && !o.status.autopilot && !o.status.logs && w1.alarms.errors == w0.alarms.errors {
      var instance :| Alarms.Alarming(w0.alarms, w1.alarms, o.namespace, o.name, o.spec.endpoint, instance, Ok);
      var urn :| Alarms.Connected(w0.alarms, w1.alarms, o.namespace, o.name, o.spec.endpoint, instance, urn);
    }
  }
}
