/** Which calls one attempt makes, in which order: the plan of an attempt is fixed by the object and
    by what the cloud lists at its start, and the attempt carries out a prefix of it. */
module Plans {
  import opened Common
  import opened Types
  import opened Cloud
  import opened Names

  function KeyOf(o: Object): Key {
    (o.namespace, o.name)
  }

  function NameOf(o: Object): string {
    Encode(o.namespace, o.name)
  }

  function TriggersOf(o: Object): Triggers {
    Triggers(o.status.reboot, o.spec.backuprestoretime, o.status.logs, o.status.autopilot)
  }

  function EnlargePlan(o: Object, volume: int): seq<Call> {
    if volume < o.spec.volumesize then
      var job := Enlargement(o.status.id, o.spec.volumesize);
      [Submit(job), Await(job), Save(TriggersOf(o))]
    else []
  }

  function ResizePlan(o: Object, flavor: string): seq<Call> {
    if flavor != o.spec.flavorref then
      var job := Resizing(o.status.id, o.spec.flavorref);
      [Submit(job), Await(job), Save(TriggersOf(o))]
    else []
  }

  function WithoutReboot(o: Object): Object {
    o.(status := o.status.(reboot := false))
  }

  function RestartPlan(o: Object): seq<Call> {
    if o.status.reboot then
      var job, cleared := Restart(o.status.id), Save(TriggersOf(WithoutReboot(o)));
      [cleared, Submit(job), Await(job), cleared]
    else []
  }

  function WithoutRestore(o: Object): Object {
    o.(spec := o.spec.(backuprestoretime := ""))
  }

  /** `at` is the parsed restore time; a time that cannot be parsed ends the attempt before any call. */
  function RestorePlan(o: Object, at: Option<int>): seq<Call> {
    if o.spec.backuprestoretime != "" && at.Some? then
      var job, cleared := Restore(o.status.id, at.value), Save(TriggersOf(WithoutRestore(o)));
      [cleared, Submit(job), cleared, Await(job), cleared]
    else []
  }

  function WithoutLogs(o: Object): Object {
    o.(status := o.status.(logs := false))
  }

  function WithAutopilot(o: Object): Object {
    o.(status := o.status.(autopilot := true))
  }

  function SqlPlan(sql: bool): seq<Call> {
    if sql then [ProvisionSql] else []
  }

  function AutopilotPlan(o: Object): seq<Call> {
    if o.spec.endpoint != "" && !o.status.autopilot then [Save(TriggersOf(WithAutopilot(o))), CreateAlarms] else []
  }

  /** Fetching logs ends the attempt, whatever comes of it. */
  function FinalPlan(o: Object, sql: bool): seq<Call> {
    if o.status.logs then [Save(TriggersOf(WithoutLogs(o))), FetchLogs]
    else SqlPlan(sql) + AutopilotPlan(o)
  }

  predicate Unparsable(o: Object, at: Option<int>) {
    o.spec.backuprestoretime != "" && at.None?
  }

  function AfterTriggers(o: Object): Object {
    WithoutRestore(WithoutReboot(o))
  }

  /** The whole attempt. `sql` says that the lists of databases differ in length or the user lists
      are different pointers. */
  function UpdatePlan(o: Object, seen: Instance, at: Option<int>, sql: bool): seq<Call> {
    ScalePlan(o, seen) + RestPlan(o, at, sql)
  }

  /** The calls of one attempt at an update event: the refresh, then the plan. */
  function UpdateCalls(o: Object, seen: Instance, at: Option<int>, sql: bool): seq<Call> {
    [Save(TriggersOf(o))] + UpdatePlan(o, seen, at, sql)
  }

  function ScalePlan(o: Object, seen: Instance): seq<Call> {
    EnlargePlan(o, seen.volume) + ResizePlan(o, seen.flavor)
  }

  function RestPlan(o: Object, at: Option<int>, sql: bool): seq<Call> {
    TriggerPlan(o, at) + TailPlan(o, at, sql)
  }

  function TriggerPlan(o: Object, at: Option<int>): seq<Call> {
    RestartPlan(o) + RestorePlan(WithoutReboot(o), at)
  }

  function TailPlan(o: Object, at: Option<int>, sql: bool): seq<Call> {
    if Unparsable(o, at) then [] else FinalPlan(AfterTriggers(o), sql)
  }

  function InstanceOf(o: Object): Instance {
    Instance(NameOf(o), o.spec.volumesize, o.spec.flavorref, o.spec.hamode == "Ha")
  }

  function CreatePlan(o: Object, id: string): seq<Call> {
    [Launch(InstanceOf(o).name), Save(TriggersOf(o)), Await(Creation(id)), Save(TriggersOf(o))]
  }

  function AlarmDeletePlan(o: Object): seq<Call> {
    if o.status.autopilot then [DeleteAlarms] else []
  }

  function DeletePlan(o: Object): seq<Call> {
    AlarmDeletePlan(o) + InstanceDeletePlan(o)
  }

  function InstanceDeletePlan(o: Object): seq<Call> {
    if o.status.id == "" then [] else
      var id := o.status.id;
      [Backup(id), AwaitBackup(id), Submit(Deletion(id)), Await(Deletion(id))]
  }

  /** A save writes exactly when its refresh listed the instance, and what it writes carries the
      triggers that it was asked to save. */
  predicate Honest(e: Entry) {
    if e.call.Save? then
      (e.listed.Some? <==> e.sent.Some?) && (e.sent.Some? ==> TriggersOf(e.sent.value) == e.call.triggers)
    else
      e.listed.None? && e.sent.None?
  }

  /** A job that follows a save in the plan is submitted as soon as the save has gone well, and one at
      the start of the plan in any case. */
  predicate AtOnce(before: seq<Entry>, after: seq<Entry>, plan: seq<Call>)
    requires |before| <= |after|
  {
    var n := |after| - |before|;
    n < |plan| && plan[n].Submit? ==> n > 0 && !(after[|after| - 1].call.Save? && after[|after| - 1].ok)
  }

  /** From `before` to `after` the calls of the plan have been made in order; all but the last went
      well. On success all have been made and went well. */
  ghost predicate Along(before: seq<Entry>, after: seq<Entry>, plan: seq<Call>, r: Outcome) {
    && before <= after && |after| <= |before| + |plan|
    && (forall i | |before| <= i < |after| :: after[i].call == plan[i - |before|] && Honest(after[i]))
    && (forall i | |before| <= i < |after| - 1 :: after[i].ok)
    && AtOnce(before, after, plan)
    && (r.Ok? ==> |after| == |before| + |plan| && (|plan| > 0 ==> after[|after| - 1].ok))
  }

  /** Not all calls of the plan have been made and gone well. */
  predicate Broken(before: seq<Entry>, after: seq<Entry>, plan: seq<Call>)
    requires |before| <= |after|
  {
    |after| < |before| + |plan| || (|before| < |after| && !after[|after| - 1].ok)
  }

  predicate StartsWithJob(plan: seq<Call>) {
    plan != [] && plan[0].Submit?
  }

  /** Two stages one after the other, the second only if the first succeeded. */
  lemma AlongThen(
    t0: seq<Entry>, t1: seq<Entry>, t2: seq<Entry>, p: seq<Call>, q: seq<Call>, r1: Outcome, r2: Outcome)
    requires Along(t0, t1, p, r1) && (r1.Ok? || Broken(t0, t1, p) || !StartsWithJob(q))
    requires if r1.Ok? then Along(t1, t2, q, r2) else t2 == t1 && r2 == r1
    ensures Along(t0, t2, p + q, r2)
    ensures (if r1.Ok? then Broken(t1, t2, q) else Broken(t0, t1, p)) ==> Broken(t0, t2, p + q)
  {
    if r1.Ok? {
      forall i | |t0| <= i < |t2|
        ensures t2[i].call == (p + q)[i - |t0|] && Honest(t2[i])
        ensures i < |t2| - 1 ==> t2[i].ok
      {
        if i < |t1| {
          assert t2[i] == t1[i];
        }
      }
    }
  }

  /** An attempt whose error is dropped has still made its calls in order. */
  lemma AlongDropped(t0: seq<Entry>, t1: seq<Entry>, plan: seq<Call>, r: Outcome)
    requires Along(t0, t1, plan, r)
    ensures t0 <= t1 && Along([], t1[|t0|..], plan, Err)
  {
    AlongFrom(t0, t1, plan, r);
  }

  lemma AlongOne(t: seq<Entry>, e: Entry, r: Outcome)
    requires Honest(e) && (r.Ok? ==> e.ok)
    ensures Along(t, t + [e], [e.call], r)
  {
  }

  /** The record of an attempt by itself. */
  lemma AlongFrom(t0: seq<Entry>, t1: seq<Entry>, plan: seq<Call>, r: Outcome)
    requires Along(t0, t1, plan, r)
    ensures Along([], t1[|t0|..], plan, r)
  {
    var es := t1[|t0|..];
    assert forall i | 0 <= i < |es| :: es[i] == t1[|t0| + i];
  }

  /** A refreshed state does not change what is left to do. */
  lemma RestPlanKept(o: Object, p: Object, at: Option<int>, sql: bool)
    requires Kept(o, p)
    ensures RestPlan(p, at, sql) == RestPlan(o, at, sql)
  {
    assert TriggersOf(p) == TriggersOf(o);
    assert RestartPlan(p) == RestartPlan(o);
    assert RestorePlan(WithoutReboot(p), at) == RestorePlan(WithoutReboot(o), at);
    assert FinalPlan(AfterTriggers(p), sql) == FinalPlan(AfterTriggers(o), sql);
  }

  /** After scaling, the first call is never a job. */
  lemma RestStarts(o: Object, at: Option<int>, sql: bool)
    ensures !StartsWithJob(RestPlan(o, at, sql))
  {
    TailStarts(o, at, sql);
    StartsConcat(RestartPlan(o), RestorePlan(WithoutReboot(o), at));
    StartsConcat(TriggerPlan(o, at), TailPlan(o, at, sql));
  }

  lemma TailStarts(o: Object, at: Option<int>, sql: bool)
    ensures !StartsWithJob(TailPlan(o, at, sql))
  {
  }

  lemma StartsConcat(p: seq<Call>, q: seq<Call>)
    requires !StartsWithJob(p) && !StartsWithJob(q)
    ensures !StartsWithJob(p + q)
  {
  }

  // ----- what the jobs of an attempt do to the cloud

  function EnlargeJobs(o: Object, seen: Instance): seq<Job> {
    if seen.volume < o.spec.volumesize then [Enlargement(o.status.id, o.spec.volumesize)] else []
  }

  function ResizeJobs(o: Object, seen: Instance): seq<Job> {
    if seen.flavor != o.spec.flavorref then [Resizing(o.status.id, o.spec.flavorref)] else []
  }

  /** The jobs of an attempt that change an instance. */
  function Jobs(o: Object, seen: Instance): seq<Job> {
    EnlargeJobs(o, seen) + ResizeJobs(o, seen)
  }

  function Applied(c: Cloud, jobs: seq<Job>): Cloud
    decreases |jobs|
  {
    if jobs == [] then c else Applied(Effect(c, jobs[0]), jobs[1..])
  }

  /** Some of the jobs have run, in order, and among them all whose wait was answered without an error. */
  ghost predicate Advanced(c: Cloud, c': Cloud, jobs: seq<Job>, finished: set<Job>) {
    exists k | 0 <= k <= |jobs| :: c' == Applied(c, jobs[..k]) && forall i | k <= i < |jobs| :: jobs[i] !in finished
  }

  /** The object as the attempt may have stored it: only the triggers, the address and the state differ. */
  predicate Derived(o: Object, p: Object) {
    && p.namespace == o.namespace && p.name == o.name
    && p.spec == o.spec.(backuprestoretime := p.spec.backuprestoretime)
    && p.status.id == o.status.id
  }

  /** Only the address and the state differ. */
  predicate Kept(o: Object, p: Object) {
    p == o.(status := p.status) && Refreshed(o.status, p.status)
  }

  predicate Touched(before: map<Key, Object>, after: map<Key, Object>, o: Object) {
    var key := (o.namespace, o.name);
    && after.Keys == before.Keys
    && (forall k | k in before && k != key :: after[k] == before[k])
    && (key in before ==> after[key] == before[key] || Derived(o, after[key]))
  }

  lemma TouchedTwice(s0: map<Key, Object>, s1: map<Key, Object>, s2: map<Key, Object>, o: Object, p: Object)
    requires Touched(s0, s1, o) && Touched(s1, s2, p) && Derived(o, p)
    ensures Touched(s0, s2, o)
  {
  }

  // ----- triggers

  /** Job or task started by a trigger. */
  predicate Fires(call: Call) {
    (call.Submit? && (call.job.Restart? || call.job.Restore?)) || call.FetchLogs?
  }

  predicate Clears(save: Call, call: Call) {
    && save.Save?
    && (call.Submit? && call.job.Restart? ==> !save.triggers.reboot)
    && (call.Submit? && call.job.Restore? ==> save.triggers.restore == "")
    && (call.FetchLogs? ==> !save.triggers.logs)
  }

  /** Right before `calls[i]` comes a save with the trigger cleared; no save before that one has it
      cleared, and none after it carries it again. */
  predicate ClearedAt(calls: seq<Call>, i: nat)
    requires i < |calls|
  {
    && i > 0 && calls[i - 1].Save?
    && forall k | 0 <= k < |calls| && calls[k].Save? :: Clears(calls[k], calls[i]) <==> i - 1 <= k
  }

  predicate WellTriggered(calls: seq<Call>) {
    forall i | 0 <= i < |calls| && Fires(calls[i]) :: ClearedAt(calls, i)
  }

  lemma PrefixWellTriggered(calls: seq<Call>, n: nat)
    requires WellTriggered(calls) && n <= |calls|
    ensures WellTriggered(calls[..n])
  {
    forall i | 0 <= i < n && Fires(calls[i])
      ensures ClearedAt(calls[..n], i)
    {
      assert ClearedAt(calls, i);
    }
  }

  /** The saves of `p` carry the triggers that fire in `q`, those of `q` carry none that fires in `p`. */
  predicate InOrder(p: seq<Call>, q: seq<Call>) {
    && (forall i, k | 0 <= i < |p| && Fires(p[i]) && 0 <= k < |q| && q[k].Save? :: Clears(q[k], p[i]))
    && (forall i, k | 0 <= i < |q| && Fires(q[i]) && 0 <= k < |p| && p[k].Save? :: !Clears(p[k], q[i]))
  }

  lemma WellTriggeredConcat(p: seq<Call>, q: seq<Call>)
    requires WellTriggered(p) && WellTriggered(q) && InOrder(p, q)
    ensures WellTriggered(p + q)
  {
    var all := p + q;
    forall i | 0 <= i < |all| && Fires(all[i])
      ensures ClearedAt(all, i)
    {
      if i < |p| {
        assert ClearedAt(p, i);
      } else {
        assert Fires(q[i - |p|]) && ClearedAt(q, i - |p|);
      }
    }
  }

  /** What the saves of a stage have in common, by the trigger. */
  predicate Saves(calls: seq<Call>, reboot: bool, restore: string, logs: bool) {
    forall k | 0 <= k < |calls| && calls[k].Save? ::
      calls[k].triggers.reboot == reboot && calls[k].triggers.restore == restore && calls[k].triggers.logs == logs
  }

  predicate NoneReboots(calls: seq<Call>) {
    forall k | 0 <= k < |calls| && calls[k].Save? :: !calls[k].triggers.reboot
  }

  predicate FiresOnly(calls: seq<Call>, restart: bool, restore: bool, logs: bool) {
    forall i | 0 <= i < |calls| && Fires(calls[i]) ::
      || (restart && calls[i].Submit? && calls[i].job.Restart?)
      || (restore && calls[i].Submit? && calls[i].job.Restore?)
      || (logs && calls[i].FetchLogs?)
  }

  lemma ScaleTriggers(o: Object, seen: Instance)
    ensures Saves(ScalePlan(o, seen), o.status.reboot, o.spec.backuprestoretime, o.status.logs)
    ensures FiresOnly(ScalePlan(o, seen), false, false, false) && WellTriggered(ScalePlan(o, seen))
  {
  }

  lemma RestartTriggers(o: Object)
    ensures Saves(RestartPlan(o), false, o.spec.backuprestoretime, o.status.logs)
    ensures FiresOnly(RestartPlan(o), o.status.reboot, false, false) && WellTriggered(RestartPlan(o))
  {
    if o.status.reboot {
      assert ClearedAt(RestartPlan(o), 1);
    }
  }

  lemma RestoreTriggers(o: Object, at: Option<int>)
    ensures Saves(RestorePlan(o, at), o.status.reboot, "", o.status.logs)
    ensures FiresOnly(RestorePlan(o, at), false, o.spec.backuprestoretime != "", false)
    ensures WellTriggered(RestorePlan(o, at))
  {
    if RestorePlan(o, at) != [] {
      assert ClearedAt(RestorePlan(o, at), 1);
    }
  }

  lemma TailTriggers(o: Object, at: Option<int>, sql: bool)
    ensures Saves(TailPlan(o, at, sql), false, "", false)
    ensures FiresOnly(TailPlan(o, at, sql), false, false, o.status.logs) && WellTriggered(TailPlan(o, at, sql))
  {
    if o.status.logs && !Unparsable(o, at) {
      assert ClearedAt(TailPlan(o, at, sql), 1);
    }
  }

  lemma FiresConcat(p: seq<Call>, q: seq<Call>, restart: bool, restore: bool, logs: bool)
    requires FiresOnly(p, restart, restore, logs) && FiresOnly(q, restart, restore, logs)
    ensures FiresOnly(p + q, restart, restore, logs)
  {
  }

  lemma RestoreAndTail(o: Object, at: Option<int>, sql: bool)
    ensures var q := RestorePlan(WithoutReboot(o), at) + TailPlan(o, at, sql);
            WellTriggered(q) && FiresOnly(q, false, o.spec.backuprestoretime != "", o.status.logs)
    ensures NoneReboots(RestorePlan(WithoutReboot(o), at) + TailPlan(o, at, sql))
  {
    var p, q := RestorePlan(WithoutReboot(o), at), TailPlan(o, at, sql);
    RestoreTriggers(WithoutReboot(o), at);
    TailTriggers(o, at, sql);
    assert InOrder(p, q);
    WellTriggeredConcat(p, q);
  }

  lemma RestartAndRest(o: Object, at: Option<int>, sql: bool)
    ensures WellTriggered(RestPlan(o, at, sql))
    ensures FiresOnly(RestPlan(o, at, sql), o.status.reboot, o.spec.backuprestoretime != "", o.status.logs)
  {
    var p, q := RestartPlan(o), RestorePlan(WithoutReboot(o), at) + TailPlan(o, at, sql);
    RestartTriggers(o);
    RestoreAndTail(o, at, sql);
    assert InOrder(p, q);
    WellTriggeredConcat(p, q);
    FiresConcat(p, q, o.status.reboot, o.spec.backuprestoretime != "", o.status.logs);
    assert RestPlan(o, at, sql) == p + q;
  }

  lemma StartTriggers(o: Object, seen: Instance)
    ensures var p := [Save(TriggersOf(o))] + ScalePlan(o, seen);
            Saves(p, o.status.reboot, o.spec.backuprestoretime, o.status.logs) && FiresOnly(p, false, false, false)
  {
    ScaleTriggers(o, seen);
  }

  lemma OrderBySaves(p: seq<Call>, q: seq<Call>, reboot: bool, restore: string, logs: bool)
    requires Saves(p, reboot, restore, logs) && FiresOnly(p, false, false, false)
    requires FiresOnly(q, reboot, restore != "", logs)
    ensures WellTriggered(p) && InOrder(p, q)
  {
  }

  lemma UpdateCallsSplit(o: Object, seen: Instance, at: Option<int>, sql: bool)
    ensures UpdateCalls(o, seen, at, sql) == ([Save(TriggersOf(o))] + ScalePlan(o, seen)) + RestPlan(o, at, sql)
  {
  }

  lemma UpdateCallsWellTriggered(o: Object, seen: Instance, at: Option<int>, sql: bool)
    ensures WellTriggered(UpdateCalls(o, seen, at, sql))
  {
    UpdateCallsSplit(o, seen, at, sql);
    var p, q := [Save(TriggersOf(o))] + ScalePlan(o, seen), RestPlan(o, at, sql);
    StartTriggers(o, seen);
    RestartAndRest(o, at, sql);
    OrderBySaves(p, q, o.status.reboot, o.spec.backuprestoretime, o.status.logs);
    WellTriggeredConcat(p, q);
  }

  /** In every attempt, stopped at any call, each restart, restore and log job comes right after a save
      with that trigger cleared, the first such save, and no later save of the attempt carries it again. */
  lemma TriggersClearedFirst(o: Object, seen: Instance, at: Option<int>, sql: bool, n: nat)
    requires n <= |UpdateCalls(o, seen, at, sql)|
    ensures WellTriggered(UpdateCalls(o, seen, at, sql)[..n])
  {
    UpdateCallsWellTriggered(o, seen, at, sql);
    PrefixWellTriggered(UpdateCalls(o, seen, at, sql), n);
  }

  // ----- the calls of an update, one by one

  /** The call is one that the object asks for, with its arguments. */
  predicate Asked(call: Call, o: Object, at: Option<int>, sql: bool) {
    match call
    case Submit(job) => AskedJob(job, o, at)
    case Await(job) => AskedJob(job, o, at)
    case FetchLogs => o.status.logs
    case ProvisionSql => sql && !o.status.logs
    case CreateAlarms => o.spec.endpoint != "" && !o.status.autopilot && !o.status.logs
    case Save(_) => true
    case _ => false
  }

  predicate AskedJob(job: Job, o: Object, at: Option<int>) {
    match job
    case Enlargement(id, size) => id == o.status.id && size == o.spec.volumesize
    case Resizing(id, flavor) => id == o.status.id && flavor == o.spec.flavorref
    case Restart(id) => id == o.status.id && o.status.reboot
    case Restore(id, time) => id == o.status.id && o.spec.backuprestoretime != "" && at == Some(time)
    case _ => false
  }

  /** After each wait comes a save, and before the creation of alarms one that turns the autopilot on. */
  predicate SavedAt(calls: seq<Call>, i: nat)
    requires i < |calls|
  {
    && (calls[i].Await? ==> i + 1 < |calls| && calls[i + 1].Save?)
    && (calls[i].CreateAlarms? ==> i > 0 && calls[i - 1].Save? && calls[i - 1].triggers.autopilot)
  }

  predicate AllAsked(calls: seq<Call>, o: Object, at: Option<int>, sql: bool) {
    forall i | 0 <= i < |calls| :: Asked(calls[i], o, at, sql) && SavedAt(calls, i)
  }

  lemma AskedConcat(p: seq<Call>, q: seq<Call>, o: Object, at: Option<int>, sql: bool)
    requires AllAsked(p, o, at, sql) && AllAsked(q, o, at, sql)
    ensures AllAsked(p + q, o, at, sql)
  {
    forall i | 0 <= i < |p + q|
      ensures Asked((p + q)[i], o, at, sql) && SavedAt(p + q, i)
    {
      if i < |p| {
        assert SavedAt(p, i);
      } else {
        assert SavedAt(q, i - |p|);
      }
    }
  }

  /** The order of the stages: enlarge, resize, restart, restore, then logs or users, then alarms; within
      one, the submission before the wait. */
  function Rank(call: Call): int {
    match call
    case Submit(job) => 2 * JobRank(job)
    case Await(job) => 2 * JobRank(job) + 1
    case FetchLogs => 10
    case ProvisionSql => 10
    case CreateAlarms => 12
    case _ => 0
  }

  function JobRank(job: Job): int {
    match job
    case Enlargement(_, _) => 1
    case Resizing(_, _) => 2
    case Restart(_) => 3
    case Restore(_, _) => 4
    case _ => 0
  }

  predicate Ranked(calls: seq<Call>, low: int, high: int) {
    && (forall i | 0 <= i < |calls| && !calls[i].Save? :: low <= Rank(calls[i]) <= high)
    && (forall i, j | 0 <= i < j < |calls| && !calls[i].Save? && !calls[j].Save? :: Rank(calls[i]) < Rank(calls[j]))
  }

  lemma RankedConcat(p: seq<Call>, q: seq<Call>, low: int, mid: int, high: int)
    requires Ranked(p, low, mid) && Ranked(q, mid + 1, high) && low <= mid <= high
    ensures Ranked(p + q, low, high)
  {
  }

  lemma ScaleCalls(o: Object, seen: Instance, at: Option<int>, sql: bool)
    ensures AllAsked(ScalePlan(o, seen), o, at, sql) && Ranked(ScalePlan(o, seen), 1, 5)
  {
    var p, q := EnlargePlan(o, seen.volume), ResizePlan(o, seen.flavor);
    assert AllAsked(p, o, at, sql) && AllAsked(q, o, at, sql) && Ranked(p, 1, 3) && Ranked(q, 4, 5);
    AskedConcat(p, q, o, at, sql);
    RankedConcat(p, q, 1, 3, 5);
  }

  lemma TriggerCalls(o: Object, at: Option<int>, sql: bool)
    ensures AllAsked(TriggerPlan(o, at), o, at, sql) && Ranked(TriggerPlan(o, at), 6, 9)
  {
    var p, q := RestartPlan(o), RestorePlan(WithoutReboot(o), at);
    RestartCalls(o, at, sql);
    RestoreCalls(o, at, sql);
    AskedConcat(p, q, o, at, sql);
    RankedConcat(p, q, 6, 7, 9);
  }

  lemma RestartCalls(o: Object, at: Option<int>, sql: bool)
    ensures AllAsked(RestartPlan(o), o, at, sql) && Ranked(RestartPlan(o), 6, 7)
  {
  }

  lemma RestoreCalls(o: Object, at: Option<int>, sql: bool)
    ensures AllAsked(RestorePlan(WithoutReboot(o), at), o, at, sql)
    ensures Ranked(RestorePlan(WithoutReboot(o), at), 8, 9)
  {
  }

  lemma TailCalls(o: Object, at: Option<int>, sql: bool)
    ensures AllAsked(TailPlan(o, at, sql), o, at, sql) && Ranked(TailPlan(o, at, sql), 10, 12)
    ensures o.status.logs && !Unparsable(o, at) ==> FetchLogs in TailPlan(o, at, sql)
  {
  }

  /** Every call of an attempt is one that the object asks for, with its arguments, in the order of the
      stages; each job that was waited for is followed by a save. */
  lemma UpdateCallsAsked(o: Object, seen: Instance, at: Option<int>, sql: bool)
    ensures var calls := UpdateCalls(o, seen, at, sql);
            && AllAsked(calls, o, at, sql) && Ranked(calls, 1, 12)
            && (o.status.logs && (o.spec.backuprestoretime == "" || at.Some?) ==> FetchLogs in calls)
  {
    var p, q := TriggerPlan(o, at), TailPlan(o, at, sql);
    ScaleCalls(o, seen, at, sql);
    TriggerCalls(o, at, sql);
    TailCalls(o, at, sql);
    AskedConcat(p, q, o, at, sql);
    RankedConcat(p, q, 6, 9, 12);
    UpdateCallsTogether(o, [Save(TriggersOf(o))], ScalePlan(o, seen), p, q, at, sql);
    UpdateCallsSplit(o, seen, at, sql);
  }

  lemma UpdateCallsTogether(
    o: Object, x: seq<Call>, y: seq<Call>, p: seq<Call>, q: seq<Call>, at: Option<int>, sql: bool)
    requires x == [Save(TriggersOf(o))] && AllAsked(y, o, at, sql) && Ranked(y, 1, 5)
    requires AllAsked(p + q, o, at, sql) && Ranked(p + q, 6, 12)
    ensures AllAsked(x + y + (p + q), o, at, sql) && Ranked(x + y + (p + q), 1, 12)
  {
    AskedConcat(x, y, o, at, sql);
    AskedConcat(x + y, p + q, o, at, sql);
    assert Ranked(x + y, 1, 5);
    RankedConcat(x + y, p + q, 1, 5, 12);
  }

  predicate Scales(call: Call) {
    call.Submit? && (call.job.Enlargement? || call.job.Resizing?)
  }

  lemma RestNeverScales(o: Object, at: Option<int>, sql: bool, i: nat)
    requires i < |RestPlan(o, at, sql)|
    ensures !Scales(RestPlan(o, at, sql)[i])
  {
  }

  /** An attempt asks for an enlargement or a resize exactly when the listed instance falls short. */
  lemma ScalesOnlyWhenShort(o: Object, seen: Instance, at: Option<int>, sql: bool)
    ensures (exists i | 0 <= i < |UpdatePlan(o, seen, at, sql)| :: Scales(UpdatePlan(o, seen, at, sql)[i])) <==>
            seen.volume < o.spec.volumesize || seen.flavor != o.spec.flavorref
  {
    var plan, scale := UpdatePlan(o, seen, at, sql), ScalePlan(o, seen);
    if scale != [] {
      assert Scales(plan[0]);
    } else if i :| 0 <= i < |plan| && Scales(plan[i]) {
      RestNeverScales(o, at, sql, i);
    }
  }
}
