/** The reconcile operations. Every call to the cloud or the store may fail, with or without effect;
    a nil instance or an index out of range panics. */
module Controllers {
  import opened Common
  import opened Types
  import opened Cloud
  import opened Plans
  import opened Steps
  import opened Stages
  import Sql
  import Alarms

  class Controller {
    const backend: Backend
    const db: Sql.Database
    const ces: Alarms.AlarmService
    /** `time.Parse(time.RFC3339, s)`, in milliseconds. */
    const parseTime: string -> Option<int>

    constructor (backend: Backend, db: Sql.Database, ces: Alarms.AlarmService, parseTime: string -> Option<int>)
      ensures this.backend == backend && this.db == db && this.ces == ces && this.parseTime == parseTime
    {
      this.backend, this.db, this.ces, this.parseTime := backend, db, ces, parseTime;
    }

    function Now(): World
      reads backend, db, ces
    {
      World(backend.cloud, backend.store, backend.trace, backend.errors + db.errors + ces.errors, backend.nodeless,
            db.Now(), ces.Now())
    }

    function RestoreTime(o: Object): Option<int> {
      parseTime(o.spec.backuprestoretime)
    }

    /** Refreshes address and state from the cloud and writes the whole object back. */
    method RdsUpdateStatus(newRds: Rds) returns (r: Outcome, ghost found: Option<Listed>)
      requires backend.listed == None && backend.sent == None
      modifies backend, newRds`status
      ensures unchanged(backend`cloud, backend`trace, backend`raised)
      ensures newRds.status == old(newRds.status).(ip := newRds.status.ip, status := newRds.status.status)
      ensures found.None? ==> newRds.status == old(newRds.status)
      ensures found.Some? && found.value.status != "" ==> newRds.status.status == found.value.status
      ensures found.Some? && found.value.status == "" ==> newRds.status.status == old(newRds.status.status)
      ensures found.Some? && found.value.privateIps != [] ==> newRds.status.ip == found.value.privateIps[0]
      ensures found.Some? && found.value.privateIps == [] ==> newRds.status.ip == "0.0.0.0"
      ensures found.Some? ==> SeenIn(backend.cloud, NameOf(newRds.Value()), found.value.inst)
      ensures backend.listed == found
      ensures backend.sent == if found.Some? then Some(newRds.Value()) else None
      ensures Touched(old(backend.store), backend.store, old(newRds.Value()))
      ensures r.Ok? ==>
                found.Some? && backend.store == old(backend.store)[KeyOf(newRds.Value()) := newRds.Value()]
      ensures backend.errors >= old(backend.errors) && backend.nodeless >= old(backend.nodeless)
      ensures r.Err? ==> newRds.status.id == "" || backend.errors > old(backend.errors)
      ensures r.Panic? ==> NotListed(backend.cloud, NameOf(newRds.Value()))
      ensures newRds.status.id == "" ==> r.Err? && found.None?
    {
      if newRds.status.id == "" {
        return Err, None;
      }
      var configured := backend.Answer();
      if !configured {
        return Err, None;
      }
      var ok, l := backend.Find(NameOf(newRds.Value()));
      if !ok {
        return Err, None;
      }
      if l.None? {
        return Panic, None;
      }
      r := WriteBack(newRds, l.value);
      found := l;
    }

    method WriteBack(newRds: Rds, l: Listed) returns (r: Outcome)
      modifies backend`store, backend`errors, backend`sent, newRds`status
      ensures newRds.status == old(newRds.status).(ip := newRds.status.ip, status := newRds.status.status)
      ensures newRds.status.status == if l.status != "" then l.status else old(newRds.status.status)
      ensures newRds.status.ip == if |l.privateIps| > 0 then l.privateIps[0] else "0.0.0.0"
      ensures backend.sent == Some(newRds.Value())
      ensures Touched(old(backend.store), backend.store, old(newRds.Value()))
      ensures r.Ok? ==> backend.store == old(backend.store)[KeyOf(newRds.Value()) := newRds.Value()]
      ensures backend.errors >= old(backend.errors) && (r.Err? ==> backend.errors > old(backend.errors))
      ensures !r.Panic?
    {
      newRds.status := newRds.status.(ip := if |l.privateIps| > 0 then l.privateIps[0] else "0.0.0.0");
      if l.status != "" {
        newRds.status := newRds.status.(status := l.status);
      }
      var ok := backend.SaveObject(newRds.Value());
      if !ok {
        return Err;
      }
      var served := backend.Answer();  // the service and its endpoint
      return if served then Ok else Err;
    }

    /** Drops the result of the update, so that a lost write goes unnoticed: the save is recorded as
        good although its refresh may have listed nothing, and then nothing was sent. */
    method UpdateStatus(newRds: Rds) returns (r: Outcome)
      modifies backend, newRds`status
      ensures unchanged(backend`cloud)
      ensures Kept(old(newRds.Value()), newRds.Value())
      ensures Stage(old(Now()), Now(), old(newRds.Value()), [Save(TriggersOf(old(newRds.Value())))], r, false, false)
      ensures backend.trace == old(backend.trace) +
                [Entry(Save(TriggersOf(old(newRds.Value()))), r.Ok?, backend.listed, backend.sent)]
      ensures TakesOver(old(newRds.Value()), newRds.Value(), backend.trace[|old(backend.trace)|])
      ensures backend.listed.Some? ==> SeenIn(backend.cloud, NameOf(newRds.Value()), backend.listed.value.inst)
      ensures backend.sent == if backend.listed.Some? then Some(newRds.Value()) else None
    {
      var save := Save(TriggersOf(newRds.Value()));
      r := TryUpdateStatus(newRds);
      backend.Record(save, r.Ok?);
      AlongOne(old(backend.trace), Entry(save, r.Ok?, backend.listed, backend.sent), r);
    }

    /** The update itself, with no result but that of the client or a panic. */
    method TryUpdateStatus(newRds: Rds) returns (r: Outcome)
      modifies backend, newRds`status
      ensures unchanged(backend`cloud, backend`trace)
      ensures Kept(old(newRds.Value()), newRds.Value())
      ensures TakesOver(old(newRds.Value()), newRds.Value(),
                Entry(Save(TriggersOf(newRds.Value())), r.Ok?, backend.listed, backend.sent))
      ensures backend.listed.Some? ==> SeenIn(backend.cloud, NameOf(newRds.Value()), backend.listed.value.inst)
      ensures backend.sent == if backend.listed.Some? then Some(newRds.Value()) else None
      ensures Touched(old(backend.store), backend.store, old(newRds.Value()))
      ensures backend.errors >= old(backend.errors) && backend.nodeless >= old(backend.nodeless)
      ensures r.Err? ==> backend.errors > old(backend.errors)
      ensures r.Panic? ==> NotListed(backend.cloud, NameOf(newRds.Value()))
    {
      backend.BeginSave();
      var provider := backend.Answer();
      if !provider {
        return Err;
      }
      ghost var found;
      r, found := RdsUpdateStatus(newRds);
      r := if r.Panic? then Panic else Ok;
    }

    /** Reads the instance by id, takes over its state and saves. */
    method Reload(newRds: Rds) returns (r: Outcome)
      modifies backend, newRds`status
      ensures unchanged(backend`cloud)
      ensures Kept(old(newRds.Value()), newRds.Value())
      ensures Stage(old(Now()), Now(), old(newRds.Value()), [Save(TriggersOf(old(newRds.Value())))], r, false, false)
      ensures !r.Ok? ==> Broken(old(backend.trace), backend.trace, [Save(TriggersOf(old(newRds.Value())))])
    {
      ghost var o, w0 := newRds.Value(), Now();
      ghost var plan := [Save(TriggersOf(o))];
      var ok, found := backend.Get(newRds.status.id);
      ghost var w1 := Now();
      if !ok || found.None? {
        StageWithoutLook(w0, w1, o, plan, if ok then Panic else Err, false);
        return if ok then Panic else Err;
      }
      newRds.status := newRds.status.(status := found.value.status);
      ghost var o1 := newRds.Value();
      r := UpdateStatus(newRds);
      StageAfterLook(w0, w1, Now(), o, o1, plan, r, false, false);
    }

    /** Waits for a job and reloads. */
    method FinishJob(newRds: Rds, job: Job) returns (r: Outcome)
      modifies backend, newRds`status
      ensures Kept(old(newRds.Value()), newRds.Value())
      ensures Stage(old(Now()), Now(), old(newRds.Value()),
                [Await(job), Save(TriggersOf(old(newRds.Value())))], r, false, false)
      ensures backend.cloud == old(backend.cloud) || backend.cloud == Effect(old(backend.cloud), job)
      ensures job in Finished(backend.trace[|old(backend.trace)|..]) ==>
                backend.cloud == Effect(old(backend.cloud), job)
      ensures r.Ok? ==> backend.cloud == Effect(old(backend.cloud), job)
      ensures !r.Ok? ==> Broken(old(backend.trace), backend.trace, [Await(job), Save(TriggersOf(old(newRds.Value())))])
    {
      ghost var o, w0 := newRds.Value(), Now();
      var ok := backend.AwaitJob(job);
      ghost var w1 := Now();
      AlongOne(w0.trace, Plain(Await(job), ok), if ok then Ok else Err);
      r := if ok then Ok else Err;
      if ok {
        r := Reload(newRds);
      } else {
        assert backend.trace[|old(backend.trace)|..] == [Plain(Await(job), false)];
      }
      StageThen(w0, w1, Now(), o, o, [Await(job)], [Save(TriggersOf(o))], if ok then Ok else Err, r, false, false);
    }

    /** Submits a job, waits for it and reloads. */
    method RunJob(newRds: Rds, job: Job) returns (r: Outcome)
      modifies backend, newRds`status
      ensures Kept(old(newRds.Value()), newRds.Value())
      ensures Stage(old(Now()), Now(), old(newRds.Value()),
                [Submit(job), Await(job), Save(TriggersOf(old(newRds.Value())))], r, false, false)
      ensures backend.cloud == old(backend.cloud) || backend.cloud == Effect(old(backend.cloud), job)
      ensures job in Finished(backend.trace[|old(backend.trace)|..]) ==>
                backend.cloud == Effect(old(backend.cloud), job)
      ensures r.Ok? ==> backend.cloud == Effect(old(backend.cloud), job)
      ensures !r.Ok? ==> Broken(old(backend.trace), backend.trace,
                           [Submit(job), Await(job), Save(TriggersOf(old(newRds.Value())))])
    {
      ghost var o, w0 := newRds.Value(), Now();
      EffectTwice(backend.cloud, job);
      var ok := backend.SubmitJob(job);
      var extracted := backend.Answer();
      ghost var w1 := Now();
      ghost var r1 := if ok && extracted then Ok else Err;
      AlongOne(w0.trace, Plain(Submit(job), ok), r1);
      r := if ok && extracted then Ok else Err;
      if r.Ok? {
        r := FinishJob(newRds, job);
        FinishedSplit(w0.trace, w1.trace, backend.trace);
      }
      assert Finished(w1.trace[|w0.trace|..]) == {};
      StageThen(w0, w1, Now(), o, o, [Submit(job)], [Await(job), Save(TriggersOf(o))], r1, r, false, false);
      assert [Submit(job)] + [Await(job), Save(TriggersOf(o))] == [Submit(job), Await(job), Save(TriggersOf(o))];
    }

    method Enlarge(newRds: Rds, volume: int, ghost seen: Instance) returns (r: Outcome)
      requires seen.volume == volume
      modifies backend, newRds`status
      ensures Kept(old(newRds.Value()), newRds.Value())
      ensures Stage(old(Now()), Now(), old(newRds.Value()), EnlargePlan(old(newRds.Value()), volume), r, false, false)
      ensures var jobs := EnlargeJobs(old(newRds.Value()), seen);
              && MayHaveRun(old(backend.cloud), backend.cloud, jobs, Finished(backend.trace[|old(backend.trace)|..]))
              && (r.Ok? ==> backend.cloud == Applied(old(backend.cloud), jobs))
      ensures !r.Ok? ==> Broken(old(backend.trace), backend.trace, EnlargePlan(old(newRds.Value()), volume))
    {
      OneJob(backend.cloud, EnlargeJobs(newRds.Value(), seen));
      r := Ok;
      if volume < newRds.spec.volumesize {
        r := RunJob(newRds, Enlargement(newRds.status.id, newRds.spec.volumesize));
      }
    }

    method Resize(newRds: Rds, flavor: string, ghost seen: Instance) returns (r: Outcome)
      requires seen.flavor == flavor
      modifies backend, newRds`status
      ensures Kept(old(newRds.Value()), newRds.Value())
      ensures Stage(old(Now()), Now(), old(newRds.Value()), ResizePlan(old(newRds.Value()), flavor), r, false, false)
      ensures var jobs := ResizeJobs(old(newRds.Value()), seen);
              && MayHaveRun(old(backend.cloud), backend.cloud, jobs, Finished(backend.trace[|old(backend.trace)|..]))
              && (r.Ok? ==> backend.cloud == Applied(old(backend.cloud), jobs))
    {
      OneJob(backend.cloud, ResizeJobs(newRds.Value(), seen));
      r := Ok;
      if flavor != newRds.spec.flavorref {
        r := RunJob(newRds, Resizing(newRds.status.id, newRds.spec.flavorref));
      }
    }

    /** Enlarge the volume, then change the flavour, each where the instance differs. */
    method Scale(newRds: Rds, volume: int, flavor: string, ghost seen: Instance) returns (r: Outcome)
      requires seen.volume == volume && seen.flavor == flavor
      modifies backend, newRds`status
      ensures Kept(old(newRds.Value()), newRds.Value())
      ensures Stage(old(Now()), Now(), old(newRds.Value()), ScalePlan(old(newRds.Value()), seen), r, false, false)
      ensures Advanced(old(backend.cloud), backend.cloud, Jobs(old(newRds.Value()), seen),
                Finished(backend.trace[|old(backend.trace)|..]))
      ensures r.Ok? ==> backend.cloud == Applied(old(backend.cloud), Jobs(old(newRds.Value()), seen))
    {
      ghost var o, w0 := newRds.Value(), Now();
      r := Enlarge(newRds, volume, seen);
      ghost var r1, w1, o1 := r, Now(), newRds.Value();
      if r.Ok? {
        r := Resize(newRds, flavor, seen);
      }
      ghost var w2 := Now();
      StageThen(w0, w1, w2, o, o1, EnlargePlan(o, volume), ResizePlan(o, flavor), r1, r, false, false);
      ScaleAdvanced(w0.cloud, w1.cloud, w2.cloud, w0.trace, w1.trace, w2.trace, o, seen, r1);
    }

    method RestartInstance(newRds: Rds) returns (r: Outcome)
      requires newRds.status.reboot
      modifies backend, newRds`status
      ensures unchanged(backend`cloud)
      ensures Kept(WithoutReboot(old(newRds.Value())), newRds.Value())
      ensures Stage(old(Now()), Now(), old(newRds.Value()), RestartPlan(old(newRds.Value())), r, false, false)
    {
      ghost var o, w0 := newRds.Value(), Now();
      newRds.status := newRds.status.(reboot := false);
      r := UpdateStatus(newRds);
      ghost var r1, w1, o1 := r, Now(), newRds.Value();
      var job := Restart(newRds.status.id);
      ghost var cleared := Save(TriggersOf(WithoutReboot(o)));
      assert RestartPlan(o) == [cleared] + [Submit(job), Await(job), cleared];
      if r.Ok? {
        r := RunJob(newRds, job);
      }
      StageThen(w0, w1, Now(), o, o1, [cleared], [Submit(job), Await(job), cleared], r1, r, false, false);
    }

    /** Unlike the other jobs, a restore is reloaded once before and once after the wait. */
    method RestoreJob(newRds: Rds, job: Job) returns (r: Outcome)
      requires job.Restore?
      modifies backend, newRds`status
      ensures unchanged(backend`cloud)
      ensures Kept(old(newRds.Value()), newRds.Value())
      ensures var cleared := Save(TriggersOf(old(newRds.Value())));
              Stage(old(Now()), Now(), old(newRds.Value()), [Submit(job), cleared] + [Await(job), cleared], r,
                false, false)
    {
      ghost var o, w0 := newRds.Value(), Now();
      ghost var cleared := Save(TriggersOf(o));
      r := SubmitRestore(newRds, job);
      ghost var r1, w1, o1 := r, Now(), newRds.Value();
      if r.Ok? {
        r := AwaitRestore(newRds, job);
      }
      StageThen(w0, w1, Now(), o, o1, [Submit(job), cleared], [Await(job), cleared], r1, r, false, false);
    }

    method SubmitRestore(newRds: Rds, job: Job) returns (r: Outcome)
      requires job.Restore?
      modifies backend, newRds`status
      ensures unchanged(backend`cloud)
      ensures Kept(old(newRds.Value()), newRds.Value())
      ensures Stage(old(Now()), Now(), old(newRds.Value()),
                [Submit(job), Save(TriggersOf(old(newRds.Value())))], r, false, false)
    {
      ghost var o, w0 := newRds.Value(), Now();
      var ok := backend.SubmitJob(job);
      ghost var w1 := Now();
      r := if ok then Ok else Err;
      AlongOne(w0.trace, Plain(Submit(job), ok), r);
      if ok {
        r := Reload(newRds);
      }
      StageThen(w0, w1, Now(), o, o, [Submit(job)], [Save(TriggersOf(o))], if ok then Ok else Err, r, false, false);
    }

    method AwaitRestore(newRds: Rds, job: Job) returns (r: Outcome)
      requires job.Restore?
      modifies backend, newRds`status
      ensures unchanged(backend`cloud)
      ensures Kept(old(newRds.Value()), newRds.Value())
      ensures Stage(old(Now()), Now(), old(newRds.Value()),
                [Await(job), Save(TriggersOf(old(newRds.Value())))], r, false, false)
    {
      var extracted := backend.Answer();
      if !extracted {
        return Err;
      }
      r := FinishJob(newRds, job);
    }

    method RestoreInstance(newRds: Rds) returns (r: Outcome)
      requires newRds.spec.backuprestoretime != ""
      modifies backend, newRds`status, newRds`spec
      ensures unchanged(backend`cloud)
      ensures Derived(old(newRds.Value()), newRds.Value())
      ensures var o := old(newRds.Value());
              && Stage(old(Now()), Now(), o, RestorePlan(o, RestoreTime(o)), r, Unparsable(o, RestoreTime(o)), false)
              && (r.Ok? ==> Kept(WithoutRestore(o), newRds.Value()) && RestoreTime(o).Some?)
    {
      ghost var o, w0 := newRds.Value(), Now();
      var at := parseTime(newRds.spec.backuprestoretime);
      if at.None? {
        return Err;
      }
      newRds.spec := newRds.spec.(backuprestoretime := "");
      r := UpdateStatus(newRds);
      ghost var r1, w1, o1 := r, Now(), newRds.Value();
      var job := Restore(newRds.status.id, at.value);
      ghost var cleared := Save(TriggersOf(WithoutRestore(o)));
      ghost var rest := [Submit(job), cleared] + [Await(job), cleared];
      assert RestorePlan(o, at) == [cleared] + rest;
      if r.Ok? {
        r := RestoreJob(newRds, job);
      }
      StageThen(w0, w1, Now(), o, o1, [cleared], rest, r1, r, Unparsable(o, at), false);
    }

    /** Restart and point-in-time restore, where asked for. */
    method FireTriggers(newRds: Rds) returns (r: Outcome)
      modifies backend, newRds`status, newRds`spec
      ensures unchanged(backend`cloud)
      ensures Derived(old(newRds.Value()), newRds.Value())
      ensures var o := old(newRds.Value());
              && Stage(old(Now()), Now(), o, TriggerPlan(o, RestoreTime(o)), r, Unparsable(o, RestoreTime(o)), false)
              && (r.Ok? ==> Kept(AfterTriggers(o), newRds.Value()) && !Unparsable(o, RestoreTime(o)))
    {
      ghost var o, w0 := newRds.Value(), Now();
      r := Ok;
      if newRds.status.reboot {
        r := RestartInstance(newRds);
      }
      ghost var r1, w1, o1 := r, Now(), newRds.Value();
      if r.Ok? && newRds.spec.backuprestoretime != "" {
        r := RestoreInstance(newRds);
      }
      StageThen(w0, w1, Now(), o, o1, RestartPlan(o), RestorePlan(WithoutReboot(o), RestoreTime(o)), r1, r,
        Unparsable(o, RestoreTime(o)), false);
    }

    /** Clears the trigger, then starts a job that fetches the logs; a job that exists already will do. */
    method FetchErrorLogs(newRds: Rds) returns (r: Outcome)
      requires newRds.status.logs
      modifies backend, newRds`status
      ensures unchanged(backend`cloud)
      ensures Derived(old(newRds.Value()), newRds.Value())
      ensures Stage(old(Now()), Now(), old(newRds.Value()), FinalPlan(old(newRds.Value()), false), r, false, false)
    {
      ghost var o, w0 := newRds.Value(), Now();
      newRds.status := newRds.status.(logs := false);
      r := UpdateStatus(newRds);
      ghost var r1, w1, o1 := r, Now(), newRds.Value();
      if r.Ok? {
        r := RunLogJob();
      }
      assert FinalPlan(o, false) == [Save(TriggersOf(WithoutLogs(o)))] + [FetchLogs];
      StageThen(w0, w1, Now(), o, o1, [Save(TriggersOf(WithoutLogs(o)))], [FetchLogs], r1, r, false, false);
    }

    method RunLogJob() returns (r: Outcome)
      modifies backend
      ensures unchanged(backend`cloud)
      ensures forall o :: Stage(old(Now()), Now(), o, [FetchLogs], r, false, false)
    {
      var token := backend.Answer();
      if !token {
        return Err;
      }
      var created, completed := *, *;
      backend.RecordAnswer(FetchLogs, created);
      AlongOne(old(backend.trace), Plain(FetchLogs, created), if created then Ok else Err);
      if !created {
        return Err;
      }
      completed := backend.Answer();
      return if completed then Ok else Err;
    }

    /** Users and schemas, where wanted. */
    method Provision(oldRds: Rds, newRds: Rds) returns (r: Outcome)
      requires !newRds.status.logs
      modifies backend`trace, db
      ensures var o, sql, entries := newRds.Value(), SqlWanted(oldRds, newRds), Sql.EntriesOf(newRds);
              && Stage(old(Now()), Now(), o, SqlPlan(sql), r, Unsupported(o, sql), Unlisted(o, sql, entries))
              && Sql.SqlStep(old(db.Now()), db.Now(), o.spec.datastoretype, entries, sql, r)
              && (r.Ok? ==> !Unsupported(o, sql))
    {
      r := Ok;
      Sql.NothingProvisioned(db.Now(), Sql.EntriesOf(newRds));
      if SqlWanted(oldRds, newRds) {
        r := Sql.CreateSqlUser(db, newRds);
        backend.Record(ProvisionSql, r.Ok?);
        AlongOne(old(backend.trace), Plain(ProvisionSql, r.Ok?), r);
      }
    }

    /** Alarms for the instance, which is read again to learn its node. */
    method AlarmInstance(newRds: Rds) returns (r: Outcome)
      modifies backend, ces
      ensures unchanged(backend`cloud)
      ensures var o := newRds.Value();
              && Stage(old(Now()), Now(), o, [CreateAlarms], r,
                   Alarms.HasRule(old(ces.alarms), o.namespace, o.name, Alarms.DISC),
                   backend.nodeless > old(backend.nodeless))
              && Alarms.AlarmStep(old(ces.Now()), ces.Now(), o.namespace, o.name, o.spec.endpoint, true, r)
    {
      var ok, found := backend.Get(newRds.status.id);
      if !ok {
        return Err;
      }
      if found.None? || found.value.nodes == [] {
        return Panic;
      }
      ghost var d := ces.Now();
      r := Alarms.CreateAlarm(ces, found.value.nodes[0], newRds.spec.endpoint, newRds.name, newRds.namespace);
      Alarms.AlarmingIsStep(
        d, ces.Now(), newRds.namespace, newRds.name, newRds.spec.endpoint, found.value.nodes[0], r);
      backend.Record(CreateAlarms, r.Ok?);
      AlongOne(old(backend.trace), Plain(CreateAlarms, r.Ok?), r);
    }

    /** The autopilot, where an endpoint is given and it is not on yet. */
    method EnableAutopilot(newRds: Rds) returns (r: Outcome)
      requires !newRds.status.logs
      modifies backend, newRds`status, ces
      ensures unchanged(backend`cloud)
      ensures Derived(old(newRds.Value()), newRds.Value())
      ensures var o := old(newRds.Value());
              && Stage(old(Now()), Now(), o, AutopilotPlan(o), r,
                   WantsAlarms(o) && Alarms.HasRule(old(ces.alarms), o.namespace, o.name, Alarms.DISC),
                   WantsAlarms(o) && backend.nodeless > old(backend.nodeless))
              && Alarms.AlarmStep(old(ces.Now()), ces.Now(), o.namespace, o.name, o.spec.endpoint, WantsAlarms(o), r)
    {
      ghost var o, w0 := newRds.Value(), Now();
      if newRds.spec.endpoint == "" || newRds.status.autopilot {
        return Ok;
      }
      newRds.status := newRds.status.(autopilot := true);
      r := UpdateStatus(newRds);
      ghost var r1, w1, o1 := r, Now(), newRds.Value();
      if r.Ok? {
        r := AlarmInstance(newRds);
      }
      ghost var save := Save(TriggersOf(WithAutopilot(o)));
      assert AutopilotPlan(o) == [save] + [CreateAlarms];
      StageThen(w0, w1, Now(), o, o1, [save], [CreateAlarms], r1, r,
        Alarms.HasRule(old(ces.alarms), o.namespace, o.name, Alarms.DISC), backend.nodeless > old(backend.nodeless));
    }

    /** Logs, or else SQL provisioning and the autopilot; fetching logs ends the attempt. */
    method Finish(oldRds: Rds, newRds: Rds) returns (r: Outcome)
      requires oldRds != newRds && newRds.spec.backuprestoretime == ""
      modifies backend, newRds`status, db, ces
      ensures unchanged(backend`cloud)
      ensures var o, sql := old(newRds.Value()), old(SqlWanted(oldRds, newRds));
              Attempted(old(Now()), Now(), o, FinalPlan(o, sql), None, sql, old(Sql.EntriesOf(newRds)), r)
    {
      ghost var o, w0, sql, entries := newRds.Value(), Now(), SqlWanted(oldRds, newRds), Sql.EntriesOf(newRds);
      if newRds.status.logs {
        Sql.NothingProvisioned(db.Now(), entries);
        r := FetchErrorLogs(newRds);
        return;
      }
      r := Provision(oldRds, newRds);
      ghost var r1, w1 := r, Now();
      if r.Ok? {
        r := EnableAutopilot(newRds);
      }
      StageThen(w0, w1, Now(), o, o, SqlPlan(sql), AutopilotPlan(o), r1, r,
        Refused(o, None, sql, w0.alarms), Stumbles(w0, Now(), o, sql, entries));
    }

    /** What follows once the instance has its size: triggers first, then logs, users and alarms. */
    method FollowUp(oldRds: Rds, newRds: Rds) returns (r: Outcome)
      requires oldRds != newRds
      modifies backend, newRds`status, newRds`spec, db, ces
      ensures unchanged(backend`cloud)
      ensures var o, sql := old(newRds.Value()), old(SqlWanted(oldRds, newRds));
              var at := RestoreTime(o);
              Attempted(old(Now()), Now(), o, RestPlan(o, at, sql), at, sql, old(Sql.EntriesOf(newRds)), r)
    {
      ghost var o, w0, sql, entries := newRds.Value(), Now(), SqlWanted(oldRds, newRds), Sql.EntriesOf(newRds);
      ghost var at := RestoreTime(o);
      r := FireTriggers(newRds);
      ghost var r1, w1, o1 := r, Now(), newRds.Value();
      if r.Ok? {
        r := Finish(oldRds, newRds);
      }
      TriggersThen(w0, w1, Now(), o, o1, at, sql, entries, r1, r);
    }

    /** The attempt proper, on the instance as listed. */
    method Converge(oldRds: Rds, newRds: Rds, ghost seen: Instance) returns (r: Outcome)
      requires oldRds != newRds
      requires oldRds.spec.volumesize == seen.volume && oldRds.spec.flavorref == seen.flavor
      requires newRds.status.id != "" && SeenIn(backend.cloud, NameOf(newRds.Value()), seen)
      modifies backend, newRds`status, newRds`spec, db, ces
      ensures var o := old(newRds.Value());
              Updated(old(Now()), Now(), o, RestoreTime(o), old(SqlWanted(oldRds, newRds)), old(Sql.EntriesOf(newRds)),
                Some(seen), r)
    {
      ghost var o, w0, sql, entries := newRds.Value(), Now(), SqlWanted(oldRds, newRds), Sql.EntriesOf(newRds);
      r := Scale(newRds, oldRds.spec.volumesize, oldRds.spec.flavorref, seen);
      ghost var r1, w1, o1 := r, Now(), newRds.Value();
      if r.Ok? {
        r := FollowUp(oldRds, newRds);
      }
      ScaleThen(w0, w1, Now(), o, o1, RestoreTime(o), sql, entries, seen, r1, r);
    }

    /** One attempt to bring the instance in line with `newRds`. `seen` is the instance listed at its start. */
    method RdsUpdate(oldRds: Rds, newRds: Rds) returns (r: Outcome, ghost seen: Option<Instance>)
      requires oldRds != newRds
      modifies backend, oldRds`spec, newRds`status, newRds`spec, db, ces
      ensures var o := old(newRds.Value());
              Updated(old(Now()), Now(), o, RestoreTime(o), old(SqlWanted(oldRds, newRds)), old(Sql.EntriesOf(newRds)),
                seen, r)
    {
      if newRds.status.id == "" {
        return Err, None;
      }
      var ok, found := backend.Find(NameOf(newRds.Value()));
      if !ok {
        return Err, None;
      }
      if found.None? {
        return Panic, None;
      }
      var inst := found.value.inst;
      seen := Some(inst);
      oldRds.spec := oldRds.spec.(volumesize := inst.volume, flavorref := inst.flavor);
      assert Now() == old(Now()) && SqlWanted(oldRds, newRds) == old(SqlWanted(oldRds, newRds));
      assert newRds.Value() == old(newRds.Value()) && Sql.EntriesOf(newRds) == old(Sql.EntriesOf(newRds));
      r := Converge(oldRds, newRds, inst);
    }

    method Update(oldRds: Rds, newRds: Rds) returns (r: Outcome, ghost seen: Option<Instance>)
      requires oldRds != newRds
      modifies backend, oldRds`spec, newRds`status, newRds`spec, db, ces
      ensures var o := old(newRds.Value());
              Updated(old(Now()), Now(), o, RestoreTime(o), old(SqlWanted(oldRds, newRds)), old(Sql.EntriesOf(newRds)),
                seen, r)
    {
      var provider := backend.Answer();
      if !provider {
        return Err, None;
      }
      r, seen := RdsUpdate(oldRds, newRds);
    }

    /** The attempt works on copies, so that the queued specification stays what it was. */
    method UpdateCopies(oldRds: Rds, newRds: Rds) returns (r: Outcome, ghost seen: Option<Instance>)
      requires newRds.status.status == "ACTIVE"
      modifies backend, db, ces
      ensures var o := old(newRds.Value());
              Updated(old(Now()), Now(), o, RestoreTime(o), old(SqlWanted(oldRds, newRds)), old(Sql.EntriesOf(newRds)),
                seen, r)
    {
      ghost var w0, sql, entries := Now(), SqlWanted(oldRds, newRds), Sql.EntriesOf(newRds);
      var oldObj := oldRds.DeepCopy();
      var newObj := newRds.DeepCopy();
      assert Now() == w0 && newObj.Value() == newRds.Value();
      assert SqlWanted(oldObj, newObj) == sql && Sql.EntriesOf(newObj) == entries;
      r, seen := Update(oldObj, newObj);
    }

    ghost function ChangeOf(oldRds: Rds, newRds: Rds): (ch: Change)
      reads oldRds, oldRds.databases, oldRds.users, newRds, newRds.databases, newRds.users
      ensures ch.was == Object(oldRds.namespace, oldRds.name, oldRds.spec, oldRds.status)
      ensures ch.at == parseTime(newRds.spec.backuprestoretime)
      ensures ch.sql <==>
              || oldRds.users != newRds.users
              || (oldRds.databases == null && newRds.databases != null && newRds.databases.Length != 0)
              || (oldRds.databases != null && newRds.databases == null && oldRds.databases.Length != 0)
              || (oldRds.databases != null && newRds.databases != null &&
                  oldRds.databases.Length != newRds.databases.Length)
    {
      Change(oldRds.Value(), oldRds.SameLists(newRds), SqlWanted(oldRds, newRds), RestoreTime(newRds.Value()))
    }

    /** One attempt at an update event: the queued object is refreshed and compared with the one it
        replaces; unless it is skipped or not active, it is copied and brought into effect. */
    method ProcessUpdateRds(oldRds: Rds, newRds: Rds) returns (r: Outcome, ghost seen: Option<Instance>)
      requires oldRds != newRds
      modifies backend, newRds`status, db, ces
      ensures Processed(old(Now()), Now(), Updating(old(ChangeOf(oldRds, newRds))), old(newRds.Value()), newRds.Value(),
                old(Sql.EntriesOf(newRds)), seen, "", r)
      ensures r.Ok? ==> (seen.Some? <==>
                || old(oldRds.status) == newRds.status
                || (old(oldRds.spec) == newRds.spec && old(oldRds.SameLists(newRds))))
    {
      ghost var o, ch, w0, entries := newRds.Value(), ChangeOf(oldRds, newRds), Now(), Sql.EntriesOf(newRds);
      r := UpdateStatus(newRds);
      ghost var w1, r1, p, e := Now(), r, newRds.Value(), backend.trace[|w0.trace|];
      seen := None;
      assert RestoreTime(p) == ch.at && SqlWanted(oldRds, newRds) == ch.sql && Sql.EntriesOf(newRds) == entries;
      assert oldRds.HasChanged(newRds) <==> !ch.Skips(p);
      if r.Ok? && oldRds.HasChanged(newRds) {
        if newRds.status.status != "ACTIVE" {
          r := Err;
        } else {
          r, seen := UpdateCopies(oldRds, newRds);
        }
      }
      RefreshThen(w0, w1, Now(), ch, o, p, entries, seen, r1, r, e);
    }

    /** `made` is the id of the instance that came about, if one did. */
    method RdsCreate(newRds: Rds) returns (r: Outcome, ghost made: string)
      modifies backend, newRds`status
      ensures old(backend.trace) <= backend.trace
      ensures CreateStep(old(backend.cloud), backend.cloud, old(backend.store), backend.store,
                old(newRds.Value()), newRds.Value(), made, backend.trace[|old(backend.trace)|..])
      ensures r.Ok? ==> newRds.status.id == made != ""
      ensures made != "" ==>
                && made in backend.cloud.live
                && backend.cloud.live[made].name == newRds.namespace + "_" + newRds.name
                && backend.cloud.live[made].volume == newRds.spec.volumesize
                && backend.cloud.live[made].flavor == newRds.spec.flavorref
                && (backend.cloud.live[made].ha <==> newRds.spec.hamode == "Ha")
      ensures r.Ok? ==> Creation(made) in Finished(backend.trace[|old(backend.trace)|..])
      ensures Along(old(backend.trace), backend.trace, CreatePlan(old(newRds.Value()), made), r)
      ensures backend.errors >= old(backend.errors)
      ensures r.Err? ==>
                backend.errors > old(backend.errors) || !NotListed(old(backend.cloud), NameOf(newRds.Value()))
    {
      made := "";
      ghost var o, w0 := newRds.Value(), Now();
      var ok, found := backend.Find(NameOf(newRds.Value()));
      r := Err;
      if found.None? && ok {
        var networked := backend.Answer();  // security group, subnet and VPC
        if networked {
          r, made := LaunchFor(newRds);
        }
      }
      AlongDropped(w0.trace, backend.trace, CreatePlan(o, made), r);
      if r.Ok? {
        AlongFrom(w0.trace, backend.trace, CreatePlan(o, made), r);
        FinishedAwaited(backend.trace[|w0.trace|..], CreatePlan(o, made), 2);
      }
    }

    method CreateOpts(newRds: Rds) returns (createOpts: Instance)
      ensures createOpts == InstanceOf(newRds.Value())
    {
      var name, spec := NameOf(newRds.Value()), newRds.spec;
      if spec.hamode == "Ha" {
        createOpts := Instance(name, spec.volumesize, spec.flavorref, true);
      } else {
        createOpts := Instance(name, spec.volumesize, spec.flavorref, false);
      }
    }

    method LaunchFor(newRds: Rds) returns (r: Outcome, ghost made: string)
      modifies backend, newRds`status
      ensures var o, p := old(newRds.Value()), newRds.Value();
              && Along(old(backend.trace), backend.trace, CreatePlan(o, made), r)
              && p == o.(status := p.status) && (p.status.id == o.status.id || p.status.id == made)
              && (r.Ok? ==> p.status.id == made != "")
              && if made == "" then
                   backend.cloud == old(backend.cloud) && backend.store == old(backend.store) && p == o
                 else
                   && made !in old(backend.cloud).names
                   && backend.cloud == Launched(old(backend.cloud), made, InstanceOf(o))
                   && Touched(old(backend.store), backend.store, WithId(o, made))
      ensures backend.errors >= old(backend.errors) && (r.Err? ==> backend.errors > old(backend.errors))
    {
      ghost var o, t0 := newRds.Value(), backend.trace;
      var ok, id, status;
      var createOpts := CreateOpts(newRds);
      ok, id, status, made := backend.LaunchInstance(createOpts);
      var extracted := backend.Answer();
      ghost var launch, t1 := Launch(InstanceOf(o).name), backend.trace;
      r := if ok && extracted then Ok else Err;
      ghost var r1 := r;
      AlongOne(t0, Plain(launch, ok), r1);
      if r.Ok? {
        newRds.status := newRds.status.(id := id, status := status);
        r := AwaitCreation(newRds);
      }
      assert CreatePlan(o, made) == [launch] + CreatePlan(o, made)[1..];
      AlongThen(t0, t1, backend.trace, [launch], CreatePlan(o, made)[1..], r1, r);
    }

    /** The new id is known: save it, wait for the job, take over the address, save again. */
    method AwaitCreation(newRds: Rds) returns (r: Outcome)
      modifies backend, newRds`status
      ensures unchanged(backend`cloud)
      ensures Kept(old(newRds.Value()), newRds.Value())
      ensures Stage(old(Now()), Now(), old(newRds.Value()),
                CreatePlan(old(newRds.Value()), old(newRds.status.id))[1..], r, false, true)
    {
      ghost var o, w0 := newRds.Value(), Now();
      r := UpdateStatus(newRds);
      ghost var r1, w1, o1 := r, Now(), newRds.Value();
      if r.Ok? {
        r := TakeAddress(newRds);
      }
      ghost var save, id := Save(TriggersOf(o)), o.status.id;
      assert CreatePlan(o, id)[1..] == [save] + [Await(Creation(id)), save];
      StageThen(w0, w1, Now(), o, o1, [save], [Await(Creation(id)), save], r1, r, false, true);
    }

    method TakeAddress(newRds: Rds) returns (r: Outcome)
      modifies backend, newRds`status
      ensures unchanged(backend`cloud)
      ensures Kept(old(newRds.Value()), newRds.Value())
      ensures Stage(old(Now()), Now(), old(newRds.Value()),
                [Await(Creation(old(newRds.status.id))), Save(TriggersOf(old(newRds.Value())))], r, false, true)
    {
      ghost var o, w0 := newRds.Value(), Now();
      var extracted := backend.Answer();
      if !extracted {
        return Err;
      }
      var job := Creation(newRds.status.id);
      var ok := backend.AwaitJob(job);
      ghost var w1, r1 := Now(), if ok then Ok else Err;
      AlongOne(w0.trace, Plain(Await(job), ok), r1);
      r := if ok then Ok else Err;
      if ok {
        r := ReadAddress(newRds);
      }
      StageThen(w0, w1, Now(), o, o, [Await(job)], [Save(TriggersOf(o))], r1, r, false, true);
    }

    method ReadAddress(newRds: Rds) returns (r: Outcome)
      modifies backend, newRds`status
      ensures unchanged(backend`cloud)
      ensures Kept(old(newRds.Value()), newRds.Value())
      ensures Stage(old(Now()), Now(), old(newRds.Value()), [Save(TriggersOf(old(newRds.Value())))], r, false, true)
    {
      ghost var o, w0 := newRds.Value(), Now();
      ghost var plan := [Save(TriggersOf(o))];
      var ok, found := backend.Get(newRds.status.id);
      ghost var w1 := Now();
      if !ok || found.None? || |found.value.privateIps| == 0 {
        StageWithoutLook(w0, w1, o, plan, if ok then Panic else Err, true);
        return if ok then Panic else Err;
      }
      newRds.status := newRds.status.(ip := found.value.privateIps[0], status := found.value.status);
      ghost var o1 := newRds.Value();
      r := UpdateStatus(newRds);
      StageAfterLook(w0, w1, Now(), o, o1, plan, r, false, true);
    }

    /** Drops the error of the creation: only a panic or a missing client shows. */
    method Create(newRds: Rds) returns (r: Outcome, ghost made: string)
      modifies backend, newRds`status
      ensures Processed(old(Now()), Now(), Adding, old(newRds.Value()), newRds.Value(), old(Sql.EntriesOf(newRds)),
                None, made, r)
    {
      var clients := backend.Answer();
      if !clients {
        assert Along([], [], CreatePlan(newRds.Value(), ""), Err);
        return Err, "";
      }
      r, made := RdsCreate(newRds);
      r := if r.Panic? then Panic else Ok;
    }

    method RdsDelete(newRds: Rds) returns (r: Outcome)
      modifies backend`cloud, backend`trace, backend`errors
      ensures newRds.status.id == "" ==> r.Err? && unchanged(backend)
      ensures r.Err? ==> newRds.status.id == "" || backend.errors > old(backend.errors)
      ensures backend.errors >= old(backend.errors)
      ensures Along(old(backend.trace), backend.trace, InstanceDeletePlan(newRds.Value()), r)
      ensures Deleted(old(backend.cloud), backend.cloud, newRds.status.id, r.Ok?)
      ensures !r.Panic?
    {
      if newRds.status.id == "" {
        return Err;
      }
      var ok := backend.CreateBackup(newRds.status.id);
      if !ok {
        return Err;
      }
      ok := backend.WaitForBackup(newRds.status.id);
      if !ok {
        return Err;
      }
      var job := Deletion(newRds.status.id);
      ok := backend.SubmitJob(job);
      if !ok {
        return Err;
      }
      ok := backend.AwaitJob(job);
      var serviceGone := backend.Answer();
      return if ok && serviceGone then Ok else Err;
    }

    method Delete(newRds: Rds) returns (r: Outcome)
      modifies backend`cloud, backend`trace, backend`errors, ces
      ensures Processed(old(Now()), Now(), Deleting, newRds.Value(), newRds.Value(), old(Sql.EntriesOf(newRds)),
                None, "", r)
    {
      ghost var o, w0, entries := newRds.Value(), Now(), Sql.EntriesOf(newRds);
      r := DeleteAlarms(newRds);
      ghost var r1, w1 := r, Now();
      if r.Ok? {
        r := RdsDelete(newRds);
      }
      DeleteThen(w0, w1, Now(), o, entries, r1, r);
    }

    /** The clients of the deletion, and the alarms where the autopilot is on. */
    method DeleteAlarms(newRds: Rds) returns (r: Outcome)
      modifies backend`trace, backend`errors, ces
      ensures Along(old(backend.trace), backend.trace, AlarmDeletePlan(newRds.Value()), r)
      ensures AlarmsDeleted(old(Now()), Now(), newRds.Value(), r)
      ensures old(Now()).errors <= Now().errors && (!r.Ok? ==> old(Now()).errors < Now().errors)
    {
      var clients := backend.Answer();
      if !clients {
        return Err;
      }
      r := Ok;
      if newRds.status.autopilot {
        r := Alarms.DeleteAlarm(ces, newRds.name, newRds.namespace);
        backend.Record(Call.DeleteAlarms, r.Ok?);
        AlongOne(old(backend.trace), Plain(Call.DeleteAlarms, r.Ok?), r);
      }
    }
  }

  /** The condition under which users and schemas are provisioned: a comparison of lengths and of pointers. */
  predicate SqlWanted(oldRds: Rds, newRds: Rds)
    reads oldRds, newRds
  {
    var n := if oldRds.databases == null then 0 else oldRds.databases.Length;
    var m := if newRds.databases == null then 0 else newRds.databases.Length;
    n != m || oldRds.users != newRds.users
  }
}
