/** The calls of the attempts in a run: triggers are cleared before they fire, they fire in every
    attempt, and no instance is deleted without a completed backup. */
module History {
  import opened Common
  import opened Types
  import opened Cloud
  import opened Plans
  import opened Steps
  import opened Runs

  datatype Sort = Restarts | Restores | Deletes

  predicate Submits(call: Call, sort: Sort) {
    call.Submit? &&
    match sort
    case Restarts => call.job.Restart?
    case Restores => call.job.Restore?
    case Deletes => call.job.Deletion?
  }

  /** Of all calls, exactly the one at `j` submits a job of the sort; none if `j` is not a position. */
  predicate OnlyAt(calls: seq<Call>, sort: Sort, j: int) {
    forall i | 0 <= i < |calls| :: Submits(calls[i], sort) <==> i == j
  }

  const NOWHERE := -1

  lemma OnlyAtConcat(p: seq<Call>, q: seq<Call>, sort: Sort, i: int, j: int)
    requires OnlyAt(p, sort, i) && OnlyAt(q, sort, j) && NOWHERE <= i < |p| && NOWHERE <= j
    requires i == NOWHERE || j == NOWHERE
    ensures OnlyAt(p + q, sort, if j == NOWHERE then i else |p| + j)
  {
  }

  lemma StartFiresNothing(o: Object, seen: Instance)
    ensures var p := [Save(TriggersOf(o))] + ScalePlan(o, seen);
            OnlyAt(p, Restarts, NOWHERE) && OnlyAt(p, Restores, NOWHERE) && OnlyAt(p, Deletes, NOWHERE)
  {
  }

  lemma RestartFires(o: Object)
    ensures OnlyAt(RestartPlan(o), Restarts, if o.status.reboot then 1 else NOWHERE)
    ensures OnlyAt(RestartPlan(o), Restores, NOWHERE) && OnlyAt(RestartPlan(o), Deletes, NOWHERE)
  {
  }

  predicate Restorable(o: Object, at: Option<int>) {
    o.spec.backuprestoretime != "" && at.Some?
  }

  lemma RestoreFires(o: Object, at: Option<int>)
    ensures OnlyAt(RestorePlan(o, at), Restores, if Restorable(o, at) then 1 else NOWHERE)
    ensures OnlyAt(RestorePlan(o, at), Restarts, NOWHERE) && OnlyAt(RestorePlan(o, at), Deletes, NOWHERE)
  {
  }

  lemma TailFiresNothing(o: Object, at: Option<int>, sql: bool)
    ensures var p := TailPlan(o, at, sql);
            OnlyAt(p, Restarts, NOWHERE) && OnlyAt(p, Restores, NOWHERE) && OnlyAt(p, Deletes, NOWHERE)
  {
  }

  /** The position of the restart, after the scale stages and one save. */
  function RestartPosition(o: Object, seen: Instance): nat {
    1 + |ScalePlan(o, seen)| + 1
  }

  /** The position of the restore, after the restart as well. */
  function RestorePosition(o: Object, seen: Instance): nat {
    1 + |ScalePlan(o, seen)| + |RestartPlan(o)| + 1
  }

  lemma UpdateFires(o: Object, seen: Instance, at: Option<int>, sql: bool)
    ensures var calls := UpdateCalls(o, seen, at, sql);
            && OnlyAt(calls, Restarts, if o.status.reboot then RestartPosition(o, seen) else NOWHERE)
            && OnlyAt(calls, Restores, if Restorable(o, at) then RestorePosition(o, seen) else NOWHERE)
            && OnlyAt(calls, Deletes, NOWHERE)
  {
    var p, x, y, z := [Save(TriggersOf(o))] + ScalePlan(o, seen), RestartPlan(o),
      RestorePlan(WithoutReboot(o), at), TailPlan(o, at, sql);
    var restart, restore := if o.status.reboot then 1 else NOWHERE, if Restorable(o, at) then 1 else NOWHERE;
    StartFiresNothing(o, seen);
    RestartFires(o);
    RestoreFires(WithoutReboot(o), at);
    TailFiresNothing(o, at, sql);
    FiresThrough(p, x, y, z, restart, restore);
    UpdateCallsSplit(o, seen, at, sql);
    assert UpdateCalls(o, seen, at, sql) == p + x + y + z;
  }

  lemma FiresThrough(p: seq<Call>, x: seq<Call>, y: seq<Call>, z: seq<Call>, restart: int, restore: int)
    requires OnlyAt(p, Restarts, NOWHERE) && OnlyAt(p, Restores, NOWHERE) && OnlyAt(p, Deletes, NOWHERE)
    requires OnlyAt(x, Restarts, restart) && OnlyAt(x, Restores, NOWHERE) && OnlyAt(x, Deletes, NOWHERE)
    requires OnlyAt(y, Restarts, NOWHERE) && OnlyAt(y, Restores, restore) && OnlyAt(y, Deletes, NOWHERE)
    requires OnlyAt(z, Restarts, NOWHERE) && OnlyAt(z, Restores, NOWHERE) && OnlyAt(z, Deletes, NOWHERE)
    requires NOWHERE <= restart < |x| && NOWHERE <= restore < |y|
    ensures OnlyAt(p + x + y + z, Restarts, if restart == NOWHERE then NOWHERE else |p| + restart)
    ensures OnlyAt(p + x + y + z, Restores, if restore == NOWHERE then NOWHERE else |p| + |x| + restore)
    ensures OnlyAt(p + x + y + z, Deletes, NOWHERE)
  {
    var restarts := if restart == NOWHERE then NOWHERE else |p| + restart;
    OnlyAtConcat(p, x, Restarts, NOWHERE, restart);
    OnlyAtConcat(p + x, y, Restarts, restarts, NOWHERE);
    OnlyAtConcat(p + x + y, z, Restarts, restarts, NOWHERE);
    OnlyAtConcat(p, x, Restores, NOWHERE, NOWHERE);
    OnlyAtConcat(p + x, y, Restores, NOWHERE, restore);
    OnlyAtConcat(p + x + y, z, Restores, if restore == NOWHERE then NOWHERE else |p + x| + restore, NOWHERE);
    OnlyAtConcat(p, x, Deletes, NOWHERE, NOWHERE);
    OnlyAtConcat(p + x, y, Deletes, NOWHERE, NOWHERE);
    OnlyAtConcat(p + x + y, z, Deletes, NOWHERE, NOWHERE);
  }

  // ----- the calls of an attempt, in their order

  /** Every call is asked for; a wait that went well and is not the end is followed by a save; the stages
      come in their order. */
  predicate WellMade(es: seq<Entry>, o: Object, at: Option<int>, sql: bool, r: Outcome) {
    && (forall i | 0 <= i < |es| :: Asked(es[i].call, o, at, sql))
    && (forall i, j | 0 <= i < j < |es| && !es[i].call.Save? && !es[j].call.Save? ::
          Rank(es[i].call) < Rank(es[j].call))
    && (forall i | 0 <= i < |es| && es[i].call.Await? && i + 1 < |es| :: SavesAt(es, i + 1))
    && (forall i | 0 <= i < |es| && es[i].call.CreateAlarms? :: AutopilotSavedBefore(es, i))
    && (r.Ok? ==> |es| > 0 && !es[|es| - 1].call.Await? && (o.status.logs ==> Fetched(es)))
  }

  predicate SavesAt(es: seq<Entry>, i: nat)
    requires i < |es|
  {
    es[i].call.Save?
  }

  predicate AutopilotSavedBefore(es: seq<Entry>, i: nat)
    requires i < |es|
  {
    i > 0 && es[i - 1].call.Save? && es[i - 1].call.triggers.autopilot && es[i - 1].ok
  }

  predicate Fetched(es: seq<Entry>) {
    exists e | e in es :: e.call.FetchLogs? && e.ok
  }

  lemma CallsWellMade(es: seq<Entry>, o: Object, seen: Instance, at: Option<int>, sql: bool, r: Outcome)
    requires Along([], es, UpdateCalls(o, seen, at, sql), r)
    requires r.Ok? ==> o.spec.backuprestoretime == "" || at.Some?
    ensures WellMade(es, o, at, sql, r)
  {
    UpdateCallsAsked(o, seen, at, sql);
    PlanWellMade(es, UpdateCalls(o, seen, at, sql), o, at, sql, r);
  }

  lemma PlanWellMade(es: seq<Entry>, calls: seq<Call>, o: Object, at: Option<int>, sql: bool, r: Outcome)
    requires Along([], es, calls, r) && |calls| > 0 && AllAsked(calls, o, at, sql) && Ranked(calls, 1, 12)
    requires r.Ok? && o.status.logs ==> FetchLogs in calls
    ensures WellMade(es, o, at, sql, r)
  {
    PlanRanks(es, calls, r);
    forall i | 0 <= i < |es|
      ensures Asked(es[i].call, o, at, sql)
      ensures es[i].call.CreateAlarms? ==> AutopilotSavedBefore(es, i)
      ensures es[i].call.Await? && i + 1 < |es| ==> SavesAt(es, i + 1)
    {
      CallWellMade(es, calls, o, at, sql, r, i);
    }
    if r.Ok? {
      PlanEnds(es, calls, o, at, sql);
    }
  }

  lemma PlanRanks(es: seq<Entry>, calls: seq<Call>, r: Outcome)
    requires Along([], es, calls, r) && Ranked(calls, 1, 12)
    ensures forall i, j | 0 <= i < j < |es| && !es[i].call.Save? && !es[j].call.Save? ::
              Rank(es[i].call) < Rank(es[j].call)
  {
    assert forall i | 0 <= i < |es| :: es[i].call == calls[i];
  }

  lemma CallWellMade(
    es: seq<Entry>, calls: seq<Call>, o: Object, at: Option<int>, sql: bool, r: Outcome, i: nat)
    requires Along([], es, calls, r) && AllAsked(calls, o, at, sql) && i < |es|
    ensures Asked(es[i].call, o, at, sql)
    ensures es[i].call.CreateAlarms? ==> AutopilotSavedBefore(es, i)
    ensures es[i].call.Await? && i + 1 < |es| ==> SavesAt(es, i + 1)
  {
    assert es[i].call == calls[i] && SavedAt(calls, i);
    if i > 0 {
      assert es[i - 1].call == calls[i - 1] && es[i - 1].ok;
    }
    if i + 1 < |es| {
      assert es[i + 1].call == calls[i + 1];
    }
  }

  lemma PlanEnds(es: seq<Entry>, calls: seq<Call>, o: Object, at: Option<int>, sql: bool)
    requires Along([], es, calls, Ok) && |calls| > 0 && AllAsked(calls, o, at, sql)
    requires o.status.logs ==> FetchLogs in calls
    ensures |es| > 0 && !es[|es| - 1].call.Await? && (o.status.logs ==> Fetched(es))
  {
    var n := |calls| - 1;
    AllWentWell(es, calls, n);
    assert SavedAt(calls, n);
    if o.status.logs {
      var i :| 0 <= i < |calls| && calls[i] == FetchLogs;
      AllWentWell(es, calls, i);
      assert es[i] in es;
    }
  }

  lemma AllWentWell(es: seq<Entry>, plan: seq<Call>, i: nat)
    requires Along([], es, plan, Ok) && i < |plan|
    ensures es[i].call == plan[i] && es[i].ok
  {
  }

  /** In every run, each attempt at an update makes only calls that the queued object asks for, with its
      arguments, stage after stage. */
  lemma UpdatesWellMade(ss: seq<State>, actions: seq<Action>, n: nat, e: nat)
    requires Run(ss, actions) && n < |actions| && e in ss[n].events && ss[n].events[e].kind.Updating?
    requires actions[n].Attempt? && actions[n].e == e && actions[n].seen.Some?
    ensures var ch := ss[n].events[e].kind.change;
            WellMade(actions[n].es, ss[n].events[e].obj, ch.at, ch.sql, actions[n].r)
  {
    assert Step(ss[n], actions[n], ss[n + 1]);
    var o, ch, a := ss[n].events[e].obj, ss[n].events[e].kind.change, actions[n];
    CallsWellMade(a.es, o, a.seen.value, ch.at, ch.sql, a.r);
  }

  /** A creation launches under the object's name, saves, waits for the instance that came about and saves
      again, as far as it comes. */
  lemma CreationsWellMade(ss: seq<State>, actions: seq<Action>, n: nat, e: nat)
    requires Run(ss, actions) && n < |actions| && e in ss[n].events && ss[n].events[e].kind.Adding?
    requires actions[n].Attempt? && actions[n].e == e
    ensures var o, es, made := ss[n].events[e].obj, actions[n].es, actions[n].made;
            && |es| <= 4
            && (|es| > 0 ==> es[0].call == Launch(o.namespace + "_" + o.name))
            && (|es| > 1 ==> es[0].ok && es[1].call.Save?)
            && (|es| > 2 ==> es[1].ok && es[2].call == Await(Creation(made)))
            && (|es| > 3 ==> es[2].ok && es[3].call.Save?)
  {
    assert Step(ss[n], actions[n], ss[n + 1]);
  }

  /** A deletion is of the object's own instance; where the autopilot is on, its alarms have been deleted
      before the backup. */
  lemma DeletionsWellMade(ss: seq<State>, actions: seq<Action>, n: nat, e: nat)
    requires Run(ss, actions) && n < |actions| && e in ss[n].events && ss[n].events[e].kind.Deleting?
    requires actions[n].Attempt? && actions[n].e == e
    ensures var o, es := ss[n].events[e].obj, actions[n].es;
            && (o.status.id == "" ==> forall i | 0 <= i < |es| :: es[i].call.DeleteAlarms?)
            && (forall i | 0 <= i < |es| && es[i].call.Submit? :: es[i].call.job == Deletion(o.status.id))
            && (forall i | 0 <= i < |es| && es[i].call.Backup? :: es[i].call.id == o.status.id)
            && (o.status.autopilot && |es| > 0 ==> es[0].call.DeleteAlarms?)
            && (o.status.autopilot && |es| > 1 ==> es[0].ok)
            && (!o.status.autopilot ==> forall i | 0 <= i < |es| :: !es[i].call.DeleteAlarms?)
  {
    assert Step(ss[n], actions[n], ss[n + 1]);
    var o, es := ss[n].events[e].obj, actions[n].es;
    DeletePlanCalls(o);
    assert forall i | 0 <= i < |es| :: es[i].call == DeletePlan(o)[i];
  }

  lemma DeletePlanCalls(o: Object)
    ensures var plan := DeletePlan(o);
            && (o.status.id == "" ==> forall i | 0 <= i < |plan| :: plan[i].DeleteAlarms?)
            && (forall i | 0 <= i < |plan| && plan[i].Submit? :: plan[i].job == Deletion(o.status.id))
            && (forall i | 0 <= i < |plan| && plan[i].Backup? :: plan[i].id == o.status.id)
            && (o.status.autopilot && |plan| > 0 ==> plan[0].DeleteAlarms?)
            && (!o.status.autopilot ==> forall i | 0 <= i < |plan| :: !plan[i].DeleteAlarms?)
  {
  }

  // ----- triggers fire in every attempt

  predicate Made(es: seq<Entry>, sort: Sort) {
    exists i | 0 <= i < |es| :: Submits(es[i].call, sort)
  }

  /** A save without the trigger of the call went well. */
  predicate SavedWithout(es: seq<Entry>, call: Call) {
    exists i | 0 <= i < |es| :: es[i].ok && Clears(es[i].call, call)
  }

  /** The job at `j` is submitted if and only if a save without its trigger went well. */
  lemma FiresIff(es: seq<Entry>, plan: seq<Call>, r: Outcome, sort: Sort, j: nat)
    requires Along([], es, plan, r) && WellTriggered(plan) && OnlyAt(plan, sort, j) && j < |plan|
    requires Fires(plan[j]) && plan[j].Submit?
    ensures Made(es, sort) <==> SavedWithout(es, plan[j])
    ensures r.Ok? ==> Made(es, sort)
  {
    assert ClearedAt(plan, j);
    if Made(es, sort) {
      assert es[j].call == plan[j] && es[j - 1].call == plan[j - 1] && es[j - 1].ok;
    }
    if i :| 0 <= i < |es| && es[i].ok && Clears(es[i].call, plan[j]) {
      assert es[i].call == plan[i];
      assert j - 1 <= i;
      assert |es| != j;
      assert Submits(es[j].call, sort);
    }
    if r.Ok? {
      assert Submits(es[j].call, sort);
    }
  }

  lemma FiresNowhere(es: seq<Entry>, plan: seq<Call>, r: Outcome, sort: Sort)
    requires Along([], es, plan, r) && OnlyAt(plan, sort, NOWHERE)
    ensures !Made(es, sort)
  {
  }

  lemma InPlan(o: Object, seen: Instance, at: Option<int>, sql: bool)
    ensures var plan := UpdateCalls(o, seen, at, sql);
            && (o.status.reboot ==>
                  RestartPosition(o, seen) < |plan| && plan[RestartPosition(o, seen)] == Submit(Restart(o.status.id)))
            && (Restorable(o, at) ==>
                  RestorePosition(o, seen) < |plan| &&
                  plan[RestorePosition(o, seen)] == Submit(Restore(o.status.id, at.value)))
  {
    var p, x, y := [Save(TriggersOf(o))] + ScalePlan(o, seen), RestartPlan(o), RestorePlan(WithoutReboot(o), at);
    UpdateCallsSplit(o, seen, at, sql);
    assert UpdateCalls(o, seen, at, sql) == p + x + y + TailPlan(o, at, sql);
  }

  /** The restart is submitted if and only if the object has the trigger and a save without it went well;
      likewise for the restore. A successful attempt has done what is asked for. */
  lemma AttemptFires(es: seq<Entry>, o: Object, seen: Instance, at: Option<int>, sql: bool, r: Outcome)
    requires Along([], es, UpdateCalls(o, seen, at, sql), r)
    ensures Made(es, Restarts) <==> o.status.reboot && SavedWithout(es, Submit(Restart(o.status.id)))
    ensures Made(es, Restores) <==> Restorable(o, at) && SavedWithout(es, Submit(Restore(o.status.id, at.value)))
    ensures r.Ok? ==> (Made(es, Restarts) <==> o.status.reboot) && (Made(es, Restores) <==> Restorable(o, at))
  {
    var plan := UpdateCalls(o, seen, at, sql);
    UpdateFires(o, seen, at, sql);
    UpdateCallsWellTriggered(o, seen, at, sql);
    InPlan(o, seen, at, sql);
    if o.status.reboot {
      FiresIff(es, plan, r, Restarts, RestartPosition(o, seen));
    } else {
      FiresNowhere(es, plan, r, Restarts);
    }
    if Restorable(o, at) {
      FiresIff(es, plan, r, Restores, RestorePosition(o, seen));
    } else {
      FiresNowhere(es, plan, r, Restores);
    }
  }

  /** What the triggers with which `o` was queued make of an attempt. */
  ghost predicate FiresAsQueued(o: Object, at: Option<int>, es: seq<Entry>, r: Outcome) {
    && (Made(es, Restarts) <==> o.status.reboot && SavedWithout(es, Submit(Restart(o.status.id))))
    && (Made(es, Restores) <==> Restorable(o, at) && SavedWithout(es, Submit(Restore(o.status.id, at.value))))
    && (r.Ok? ==> (Made(es, Restarts) <==> o.status.reboot) && (Made(es, Restores) <==> Restorable(o, at)))
  }

  /** Clearing a trigger is not carried over to a retry: attempts work on copies, so after any number of
      attempts at an event, the next one restarts the instance again as soon as its save without the
      trigger goes well, and likewise restores it, exactly if the object was queued with the trigger. */
  lemma EveryAttemptFires(ss: seq<State>, actions: seq<Action>, m: nat, n: nat, e: nat, o: Object)
    requires Run(ss, actions) && m <= n < |actions| && Queued(ss[m], e, o)
    requires forall i | m <= i <= n :: e in ss[i].events
    requires actions[n].Attempt? && actions[n].e == e && actions[n].seen.Some?
    ensures FiresAsQueued(o, ss[m].events[e].kind.change.at, actions[n].es, actions[n].r)
  {
    StillQueued(ss, actions, m, n, e, o);
    NextAttemptFires(ss[n], actions[n], ss[n + 1], e, o);
  }

  lemma NextAttemptFires(s: State, a: Action, s': State, e: nat, o: Object)
    requires Step(s, a, s') && Queued(s, e, o) && a.Attempt? && a.e == e && a.seen.Some?
    ensures FiresAsQueued(o, s.events[e].kind.change.at, a.es, a.r)
  {
    var ch := s.events[e].kind.change;
    AttemptFires(a.es, s.events[e].obj, a.seen.value, ch.at, ch.sql, a.r);
  }

  // ----- triggers are cleared first

  /** The object as sent does not carry the trigger of the call. */
  predicate SentClear(e: Entry, call: Call) {
    e.sent.Some? && Clears(Save(TriggersOf(e.sent.value)), call)
  }

  /** Right before the call comes a save with the trigger cleared, and from there on no object is sent
      that carries it. An object without it has been sent before the call if and only if the refresh of
      that save listed the instance. */
  ghost predicate ClearedBefore(es: seq<Entry>, i: nat)
    requires i < |es|
  {
    && i > 0 && es[i - 1].call.Save? && es[i - 1].ok
    && (forall k | i <= k + 1 && k < |es| && es[k].sent.Some? :: SentClear(es[k], es[i].call))
    && (es[i - 1].listed.Some? <==> exists k | 0 <= k < i :: SentClear(es[k], es[i].call))
  }

  /** So it is with each restart, restore and log job. */
  ghost predicate ClearedFirst(es: seq<Entry>) {
    forall i | 0 <= i < |es| && Fires(es[i].call) :: ClearedBefore(es, i)
  }

  lemma WellTriggeredClears(es: seq<Entry>, plan: seq<Call>, r: Outcome)
    requires Along([], es, plan, r) && WellTriggered(plan)
    ensures ClearedFirst(es)
  {
    forall i | 0 <= i < |es| && Fires(es[i].call)
      ensures ClearedBefore(es, i)
    {
      assert ClearedAt(plan, i);
      assert es[i - 1].call == plan[i - 1] && Honest(es[i - 1]);
      forall k | 0 <= k < |es| && es[k].sent.Some?
        ensures SentClear(es[k], es[i].call) <==> i - 1 <= k
      {
        assert es[k].call == plan[k] && Honest(es[k]);
      }
      if es[i - 1].listed.Some? {
        assert SentClear(es[i - 1], es[i].call);
      }
    }
  }

  lemma SaveAloneWellTriggered(o: Object)
    ensures WellTriggered([Save(TriggersOf(o))])
  {
  }

  lemma SaveAlong(es: seq<Entry>, o: Object)
    requires OneSave(es, o)
    ensures Along([], es, [Save(TriggersOf(o))], Err)
  {
  }

  lemma OthersWellTriggered(o: Object, made: string)
    ensures WellTriggered(CreatePlan(o, made)) && WellTriggered(DeletePlan(o))
  {
  }

  /** In every attempt of every run, wherever it stopped. */
  lemma UpdateClearsTriggers(ss: seq<State>, actions: seq<Action>, n: nat)
    requires Run(ss, actions) && n < |actions| && actions[n].Attempt?
    ensures ClearedFirst(actions[n].es)
  {
    AttemptClears(ss[n], actions[n], ss[n + 1]);
  }

  lemma AttemptClears(s: State, a: Action, s': State)
    requires Step(s, a, s') && a.Attempt?
    ensures ClearedFirst(a.es)
  {
    var o := s.events[a.e].obj;
    match s.events[a.e].kind
    case Updating(ch) =>
      if a.seen.Some? {
        UpdateCallsWellTriggered(o, a.seen.value, ch.at, ch.sql);
        WellTriggeredClears(a.es, UpdateCalls(o, a.seen.value, ch.at, ch.sql), a.r);
      } else {
        SaveAloneWellTriggered(o);
        SaveAlong(a.es, o);
        WellTriggeredClears(a.es, [Save(TriggersOf(o))], Err);
      }
    case Adding =>
      OthersWellTriggered(o, a.made);
      WellTriggeredClears(a.es, CreatePlan(o, a.made), Err);
    case Deleting =>
      OthersWellTriggered(o, a.made);
      WellTriggeredClears(a.es, DeletePlan(o), a.r);
  }

  /** The record of an attempt at an instance of the right size, in which the refresh of the save before
      the restart listed nothing. */
  function UnsavedRestart(o: Object, l: Listed): seq<Entry> {
    [Entry(Save(TriggersOf(o)), true, Some(l), Some(o)),
     Entry(Save(TriggersOf(WithoutReboot(o))), true, None, None),
     Plain(Submit(Restart(o.status.id)), true)]
  }

  lemma UnsavedRestartAlong(o: Object, l: Listed, seen: Instance, at: Option<int>, sql: bool)
    requires o.status.reboot && ScalePlan(o, seen) == []
    ensures Along([], UnsavedRestart(o, l), UpdateCalls(o, seen, at, sql), Err)
  {
    var es, calls := UnsavedRestart(o, l), UpdateCalls(o, seen, at, sql);
    UpdateCallsSplit(o, seen, at, sql);
    assert RestPlan(o, at, sql)[..2] == [es[1].call, es[2].call];
    assert calls == [es[0].call] + RestPlan(o, at, sql);
  }

  /** An update event with `reboot` set, for an active instance that has the size and flavour asked for. */
  ghost predicate RestartDue(s: State, e: nat, seen: Instance) {
    && e in s.events && s.events[e].kind.Updating?
    && var o, ch := s.events[e].obj, s.events[e].kind.change;
       && o.status.reboot && o.status.status == "ACTIVE" && o.status.id != "" && !ch.Skips(o)
       && SeenIn(s.cloud, NameOf(o), seen) && Jobs(o, seen) == []
  }

  /** A listing that the object agrees with. */
  function ListedAs(o: Object, seen: Instance): Listed {
    Listed(o.status.id, seen, o.status.status, [o.status.ip], [])
  }

  lemma UnsavedRestartStep(s: State, e: nat, seen: Instance)
    requires RestartDue(s, e, seen)
    ensures var o := s.events[e].obj;
            UpdateStep(s.events[e].kind.change, s.cloud, s.cloud, s.store, s.store, o, o, Some(seen),
              UnsavedRestart(o, ListedAs(o, seen)), Err)
  {
    var o, ch := s.events[e].obj, s.events[e].kind.change;
    assert ScalePlan(o, seen) == [];
    UnsavedRestartAlong(o, ListedAs(o, seen), seen, ch.at, ch.sql);
    AdvancedAll(s.cloud, [], Finished(UnsavedRestart(o, ListedAs(o, seen))));
  }

  lemma UnsavedRestartFires(o: Object, l: Listed)
    ensures Made(UnsavedRestart(o, l), Restarts)
    ensures var es := UnsavedRestart(o, l);
            o.status.reboot ==> forall k | 0 <= k < |es| :: !SentClear(es[k], Submit(Restart(o.status.id)))
  {
    assert Submits(UnsavedRestart(o, l)[2].call, Restarts);
  }

  /** The refresh may fail where it should list the instance; nobody notices, nothing is sent, and the
      restart is asked for with the trigger still set in the store. If the attempt then breaks off, all is
      as before. */
  lemma RestartUnsaved(s: State, e: nat, seen: Instance) returns (a: Action)
    requires RestartDue(s, e, seen)
    ensures Step(s, a, s) && a.Attempt? && a.e == e && Made(a.es, Restarts)
    ensures forall k | 0 <= k < |a.es| :: !SentClear(a.es[k], Submit(Restart(s.events[e].obj.status.id)))
  {
    var o := s.events[e].obj;
    UnsavedRestartStep(s, e, seen);
    UnsavedRestartFires(o, ListedAs(o, seen));
    a := Attempt(e, o, Some(seen), "", UnsavedRestart(o, ListedAs(o, seen)), Err);
    assert s.events[e].(obj := o) == s.events[e];
    assert s.events[e := s.events[e]] == s.events;
  }

  /** One event with `reboot` set can restart its instance any number of times. */
  lemma RestartsRepeat(s: State, e: nat, seen: Instance, n: nat) returns (ss: seq<State>, actions: seq<Action>)
    requires RestartDue(s, e, seen)
    ensures Run(ss, actions) && ss[0] == s && |actions| == n
    ensures forall i | 0 <= i < n :: actions[i].Attempt? && actions[i].e == e && Made(actions[i].es, Restarts)
  {
    var a := RestartUnsaved(s, e, seen);
    ss, actions := seq(n + 1, _ => s), seq(n, _ => a);
  }

  // ----- no deletion without a backup

  /** Directly before the call comes a wait for a backup of the same instance, and it went well. */
  predicate BackedUpBefore(es: seq<Entry>, i: nat)
    requires i < |es| && es[i].call.Submit?
  {
    i > 0 && es[i - 1].call == AwaitBackup(es[i].call.job.id) && es[i - 1].ok
  }

  /** So it is with each deletion. */
  predicate BackedUp(es: seq<Entry>) {
    forall i | 0 <= i < |es| && Submits(es[i].call, Deletes) :: BackedUpBefore(es, i)
  }

  lemma NoneDeleted(es: seq<Entry>, plan: seq<Call>, r: Outcome)
    requires Along([], es, plan, r) && OnlyAt(plan, Deletes, NOWHERE)
    ensures BackedUp(es)
  {
    forall i | 0 <= i < |es|
      ensures !Submits(es[i].call, Deletes)
    {
      assert es[i].call == plan[i];
    }
  }

  lemma DeletionBackedUp(es: seq<Entry>, o: Object, r: Outcome)
    requires Along([], es, DeletePlan(o), r)
    ensures BackedUp(es)
  {
    var plan := DeletePlan(o);
    forall i | 0 <= i < |es| && Submits(es[i].call, Deletes)
      ensures BackedUpBefore(es, i)
    {
      assert es[i].call == plan[i];
      DeletePlanBacksUp(o, i);
      assert es[i - 1].call == plan[i - 1];
    }
  }

  lemma DeletePlanBacksUp(o: Object, i: nat)
    requires i < |DeletePlan(o)| && Submits(DeletePlan(o)[i], Deletes)
    ensures i > 0 && DeletePlan(o)[i - 1] == AwaitBackup(DeletePlan(o)[i].job.id)
  {
  }

  lemma SaveDeletesNothing(o: Object, made: string)
    ensures OnlyAt([Save(TriggersOf(o))], Deletes, NOWHERE) && OnlyAt(CreatePlan(o, made), Deletes, NOWHERE)
  {
  }

  lemma AttemptBacksUp(s: State, a: Action, s': State)
    requires Step(s, a, s') && a.Attempt?
    ensures BackedUp(a.es)
  {
    var o := s.events[a.e].obj;
    match s.events[a.e].kind
    case Updating(ch) =>
      if a.seen.Some? {
        UpdateFires(o, a.seen.value, ch.at, ch.sql);
        NoneDeleted(a.es, UpdateCalls(o, a.seen.value, ch.at, ch.sql), a.r);
      } else {
        SaveDeletesNothing(o, a.made);
        SaveAlong(a.es, o);
        NoneDeleted(a.es, [Save(TriggersOf(o))], Err);
      }
    case Adding =>
      SaveDeletesNothing(o, a.made);
      NoneDeleted(a.es, CreatePlan(o, a.made), Err);
    case Deleting =>
      DeletionBackedUp(a.es, o, a.r);
  }

  /** In every run, with retries and failures anywhere, each call that deletes an instance comes directly
      after a completed backup of that instance; without an id, or where the backup fails, there is none. */
  lemma NoDeletionWithoutBackup(ss: seq<State>, actions: seq<Action>, n: nat)
    requires Run(ss, actions) && n < |actions| && actions[n].Attempt?
    ensures BackedUp(actions[n].es)
  {
    AttemptBacksUp(ss[n], actions[n], ss[n + 1]);
  }
}
