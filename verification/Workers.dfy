/** Runs of N workers on the queue: conservation, bounded retries, termination. */
module Workers {
  import opened WorkQueue

  // ----- sums over maps

  ghost function Sum(m: map<nat, int>): int
    decreases m.Keys
  {
    if m == map[] then 0 else
      var k :| k in m;
      m[k] + Sum(m - {k})
  }

  lemma {:induction false} SumRemove(m: map<nat, int>, k: nat)
    requires k in m
    ensures Sum(m) == m[k] + Sum(m - {k})
    decreases m.Keys
  {
    var j :| j in m && Sum(m) == m[j] + Sum(m - {j});
    if j != k {
      SumRemove(m - {j}, k);
      SumRemove(m - {k}, j);
      assert m - {j} - {k} == m - {k} - {j};
    }
  }

  lemma SumUpdate(m: map<nat, int>, k: nat, x: int)
    ensures Sum(m[k := x]) == Sum(m) + x - (if k in m then m[k] else 0)
  {
    SumRemove(m[k := x], k);
    if k in m {
      SumRemove(m, k);
      assert m[k := x] - {k} == m - {k};
    } else {
      assert m[k := x] - {k} == m;
    }
  }

  lemma Distribute(b: nat, n: nat)
    requires n > 0
    ensures b + b * (n - 1) == b * n
  {
  }

  lemma {:induction false} SumBound(m: map<nat, int>, b: nat)
    requires forall k | k in m :: 0 <= m[k] <= b
    ensures 0 <= Sum(m) <= b * |m|
    decreases m.Keys
  {
    if m != map[] {
      var k :| k in m;
      var rest := m - {k};
      assert m.Keys == rest.Keys + {k};
      SumRemove(m, k);
      SumBound(rest, b);
      Distribute(b, |m|);
    }
  }

  // ----- the decreasing measure

  const BUDGET := MAX_RETRIES + 1

  /** How many queue actions an event can still go through. */
  ghost function Potential(s: System, e: nat): int
    requires e in s.attempts
  {
    var left := 5 * (BUDGET - s.attempts[e]);
    var held := if e in s.q.processing then 1 else 0;
    if e in s.q.delayed then left + held
    else if e in s.q.dirty then left - 1 + held
    else if Running(e) in s.workers then left + 3
    else if e in Processing(s) then left + 2
    else held
  }

  ghost function Potentials(s: System): map<nat, int> {
    map e | e in s.attempts :: Potential(s, e)
  }

  ghost function Measure(s: System): int {
    Sum(Potentials(s))
  }

  lemma PotentialBound(s: System, e: nat)
    requires Inv(s) && e in s.attempts
    ensures 0 <= Potential(s, e)
  {
    if Running(e) in s.workers {
      var i :| 0 <= i < |s.workers| && s.workers[i] == Running(e);
      assert Works(s.workers[i], e);
      InProcessing(s, e);
    }
  }

  /** The event that an action is about. */
  function Subject(s: System, a: Action): nat
    requires Enabled(s, a)
  {
    match a
    case Enqueue(e) => e
    case Take(_) => s.q.order[0]
    case Return(w, _) => s.workers[w].e
    case Tell(w) => s.workers[w].e
    case Finish(w) => s.workers[w].e
    case Expire(e) => e
  }

  lemma RunningAfter(s: System, w: nat, v: Worker, e: nat)
    requires WorkersSound(s) && w < |s.workers|
    requires !Holds(s.workers[w], e) && !Holds(v, e)
    ensures Running(e) in s.workers[w := v] <==> Running(e) in s.workers
  {
    if Running(e) in s.workers {
      var i :| 0 <= i < |s.workers| && s.workers[i] == Running(e);
      assert s.workers[w := v][i] == Running(e);
    }
  }

  lemma OthersInQueue(s: System, a: Action, e: nat)
    requires Enabled(s, a) && e in s.attempts && e != Subject(s, a)
    ensures var t := Next(s, a);
            && e in t.attempts && t.attempts[e] == s.attempts[e]
            && (e in t.q.processing <==> e in s.q.processing)
            && (e in t.q.delayed <==> e in s.q.delayed)
            && (e in t.q.dirty <==> e in s.q.dirty)
  {
  }

  lemma OthersAtWork(s: System, a: Action, e: nat)
    requires WorkersSound(s) && Enabled(s, a) && e != Subject(s, a)
    ensures Running(e) in Next(s, a).workers <==> Running(e) in s.workers
    ensures e in Processing(Next(s, a)) <==> e in Processing(s)
  {
    var t := Next(s, a);
    if a.Enqueue? || a.Expire? {
      SameWorkers(s, t);
    } else {
      RunningAfter(s, a.w, t.workers[a.w], e);
      ProcessingAfter(s, a.w, t.workers[a.w]);
      SameWorkers(t, s.(workers := t.workers));
    }
  }

  lemma OthersKeepPotential(s: System, a: Action, e: nat)
    requires WorkersSound(s) && Enabled(s, a) && e in s.attempts && e != Subject(s, a)
    ensures e in Next(s, a).attempts && Potential(Next(s, a), e) == Potential(s, e)
  {
    OthersInQueue(s, a, e);
    OthersAtWork(s, a, e);
  }

  lemma UniqueHolder(s: System, w: nat, v: Worker)
    requires WorkersSound(s) && w < |s.workers| && !s.workers[w].Idle?
    requires v in s.workers && !v.Idle? && v.e == s.workers[w].e
    ensures v == s.workers[w]
  {
    var i :| 0 <= i < |s.workers| && s.workers[i] == v;
  }

  lemma SubjectDecreases(s: System, a: Action)
    requires Inv(s) && Enabled(s, a) && !a.Enqueue?
    ensures Subject(s, a) in s.attempts && Subject(s, a) in Next(s, a).attempts
    ensures Potential(Next(s, a), Subject(s, a)) < Potential(s, Subject(s, a))
  {
    var t, e := Next(s, a), Subject(s, a);
    StepInv(s, a);
    if a.Take? {
      assert e in s.q.order && e in Waiting(s);
      assert Running(e) in t.workers by { assert t.workers[a.w] == Running(e); }
      TakenIsFree(s, e);
    } else if a.Expire? {
      SameWorkers(s, t);
      assert e in Waiting(s);
    } else {
      var w := a.w;
      assert s.workers[w] in s.workers && t.workers[w] in t.workers;
      InProcessing(s, e);
      InProcessing(t, e);
      assert !a.Finish? ==> Works(s.workers[w], e);
      assert a.Return? ==> Works(t.workers[w], e);
      if a.Return? && Running(e) in t.workers {
        UniqueHolder(t, w, Running(e));
      }
      if a.Tell? && Running(e) in s.workers {
        UniqueHolder(s, w, Running(e));
      }
      if a.Tell? {
        HeldIsAdded(s, w);
      }
      if a.Finish? {
        FinishingIsSettled(s, w);
        FinishedPotential(s, w);
      }
    }
  }

  lemma TakenIsFree(s: System, e: nat)
    requires Inv(s) && e in s.q.order
    ensures e in s.attempts && Potential(s, e) == 5 * (BUDGET - s.attempts[e]) - 1
  {
    assert e in Waiting(s);
    assert e !in s.q.processing;
  }

  lemma HeldIsAdded(s: System, w: nat)
    requires Inv(s) && w < |s.workers| && s.workers[w].Returned?
    ensures s.workers[w].e in s.attempts && s.workers[w].e in s.q.processing && s.workers[w].e !in Waiting(s)
    ensures Potential(s, s.workers[w].e) == 5 * (BUDGET - s.attempts[s.workers[w].e]) + 2
    ensures s.attempts[s.workers[w].e] == s.q.NumRequeues(s.workers[w].e) + 1 <= BUDGET
  {
    var e := s.workers[w].e;
    assert Works(s.workers[w], e);
    InProcessing(s, e);
    assert s.workers[w] in s.workers;
    if Running(e) in s.workers {
      UniqueHolder(s, w, Running(e));
    }
  }

  lemma FinishedPotential(s: System, w: nat)
    requires Inv(s) && w < |s.workers| && s.workers[w].Finishing?
    ensures s.workers[w].e in s.attempts
    ensures Potential(Next(s, Finish(w)), s.workers[w].e) == Potential(s, s.workers[w].e) - 1
  {
    var t, e := Next(s, Finish(w)), s.workers[w].e;
    assert s.workers[w] in s.workers;
    FinishingIsSettled(s, w);
    assert Running(e) in s.workers ==> e in Processing(s);
    assert Running(e) in t.workers ==> e in Processing(t);
    ProcessingAfter(s, w, Idle);
    SameWorkers(t, s.(workers := t.workers));
  }

  lemma AttemptsKeys(s: System, a: Action)
    requires Enabled(s, a) && Subject(s, a) in Next(s, a).attempts
    ensures Next(s, a).attempts.Keys == s.attempts.Keys + {Subject(s, a)}
  {
  }

  lemma SubjectAdded(s: System, a: Action)
    requires Inv(s) && Enabled(s, a)
    ensures Subject(s, a) in Next(s, a).attempts
  {
    if !a.Enqueue? {
      SubjectDecreases(s, a);
    }
  }

  lemma OthersUnchanged(s: System, a: Action)
    requires WorkersSound(s) && Enabled(s, a)
    ensures forall x | x in s.attempts && x != Subject(s, a) ::
              x in Next(s, a).attempts && Potential(Next(s, a), x) == Potential(s, x)
  {
    forall x | x in s.attempts && x != Subject(s, a)
      ensures x in Next(s, a).attempts && Potential(Next(s, a), x) == Potential(s, x)
    {
      OthersKeepPotential(s, a, x);
    }
  }

  lemma PotentialsAfter(s: System, a: Action)
    requires Inv(s) && Enabled(s, a)
    ensures Subject(s, a) in Next(s, a).attempts
    ensures Potentials(Next(s, a)) == Potentials(s)[Subject(s, a) := Potential(Next(s, a), Subject(s, a))]
  {
    SubjectAdded(s, a);
    AttemptsKeys(s, a);
    OthersUnchanged(s, a);
  }

  lemma EnqueuedPotential(s: System, e: nat)
    requires Inv(s) && Enabled(s, Enqueue(e))
    ensures Potential(Next(s, Enqueue(e)), e) == 5 * BUDGET - 1
  {
    assert e !in Added(s);
    var t := Next(s, Enqueue(e));
    assert e in t.q.dirty && e !in t.q.delayed && e !in t.q.processing;
  }

  lemma MeasureStep(s: System, a: Action)
    requires Inv(s) && Enabled(s, a)
    ensures if a.Enqueue? then Measure(Next(s, a)) == Measure(s) + 5 * BUDGET - 1 else Measure(Next(s, a)) < Measure(s)
  {
    var t, e := Next(s, a), Subject(s, a);
    PotentialsAfter(s, a);
    SumUpdate(Potentials(s), e, Potential(t, e));
    if a.Enqueue? {
      EnqueuedPotential(s, e);
    } else {
      SubjectDecreases(s, a);
    }
  }

  lemma MeasureNonNegative(s: System)
    requires Inv(s)
    ensures 0 <= Measure(s)
  {
    forall e | e in s.attempts {
      PotentialBound(s, e);
    }
    SumNonNegative(Potentials(s));
  }

  lemma {:induction false} SumNonNegative(m: map<nat, int>)
    requires forall k | k in m :: 0 <= m[k]
    ensures 0 <= Sum(m)
    decreases m.Keys
  {
    if m != map[] {
      var k :| k in m;
      SumRemove(m, k);
      SumNonNegative(m - {k});
    }
  }

  // ----- runs

  ghost predicate Run(ss: seq<System>, actions: seq<Action>) {
    && |ss| == |actions| + 1
    && (exists n :: ss[0] == Start(n))
    && forall i | 0 <= i < |actions| :: Enabled(ss[i], actions[i]) && ss[i + 1] == Next(ss[i], actions[i])
  }

  /** How many of the first `n` actions add an event. */
  function Adds(actions: seq<Action>, n: nat): nat
    requires n <= |actions|
  {
    if n == 0 then 0 else Adds(actions, n - 1) + if actions[n - 1].Enqueue? then 1 else 0
  }

  /** How many start an attempt. */
  function Takes(actions: seq<Action>, n: nat): nat
    requires n <= |actions|
  {
    if n == 0 then 0 else Takes(actions, n - 1) + if actions[n - 1].Take? then 1 else 0
  }

  lemma AttemptsStep(s: System, a: Action)
    requires Enabled(s, a) && (a.Take? ==> s.q.order[0] in s.attempts)
    ensures |Next(s, a).attempts| == |s.attempts| + if a.Enqueue? then 1 else 0
    ensures Sum(Next(s, a).attempts) == Sum(s.attempts) + if a.Take? then 1 else 0
  {
    if a.Take? {
      Updated(s.attempts, s.q.order[0], s.attempts[s.q.order[0]] + 1);
    } else if a.Enqueue? {
      Updated(s.attempts, a.e, 0);
    }
  }

  lemma Updated(m: map<nat, int>, k: nat, x: int)
    ensures |m[k := x]| == |m| + if k in m then 0 else 1
    ensures Sum(m[k := x]) == Sum(m) + x - if k in m then m[k] else 0
  {
    SumUpdate(m, k, x);
    assert m[k := x].Keys == m.Keys + {k};
  }

  lemma {:induction false} RunInv(ss: seq<System>, actions: seq<Action>, n: nat)
    requires Run(ss, actions) && n <= |actions|
    ensures Inv(ss[n])
  {
    if n == 0 {
      var w :| ss[0] == Start(w);
      StartInv(w);
    } else {
      RunInv(ss, actions, n - 1);
      StepInv(ss[n - 1], actions[n - 1]);
    }
  }

  function Allowance(k: nat): nat {
    5 * BUDGET * k
  }

  lemma MeasureAccount(s: System, a: Action, n: nat, k: nat)
    requires Inv(s) && Enabled(s, a) && n + Measure(s) <= Allowance(k)
    ensures n + 1 + Measure(Next(s, a)) <= Allowance(if a.Enqueue? then k + 1 else k)
  {
    MeasureStep(s, a);
    Distribute(5 * BUDGET, k + 1);
  }

  lemma OrderIsAdded(s: System)
    requires Inv(s) && s.q.order != []
    ensures s.q.order[0] in s.attempts
  {
    assert s.q.order[0] in s.q.order && s.q.order[0] in Waiting(s);
  }

  lemma CountsStep(s: System, a: Action)
    requires Inv(s) && Enabled(s, a)
    ensures |Next(s, a).attempts| == |s.attempts| + if a.Enqueue? then 1 else 0
    ensures Sum(Next(s, a).attempts) == Sum(s.attempts) + if a.Take? then 1 else 0
  {
    if a.Take? {
      OrderIsAdded(s);
    }
    AttemptsStep(s, a);
  }

  lemma RunStep(ss: seq<System>, actions: seq<Action>, n: nat, k: nat)
    requires Run(ss, actions) && n < |actions|
    ensures |ss[n + 1].attempts| == |ss[n].attempts| + if actions[n].Enqueue? then 1 else 0
    ensures Sum(ss[n + 1].attempts) == Sum(ss[n].attempts) + if actions[n].Take? then 1 else 0
    ensures n + Measure(ss[n]) <= Allowance(k) ==>
              n + 1 + Measure(ss[n + 1]) <= Allowance(if actions[n].Enqueue? then k + 1 else k)
  {
    RunInv(ss, actions, n);
    CountsStep(ss[n], actions[n]);
    if n + Measure(ss[n]) <= Allowance(k) {
      MeasureAccount(ss[n], actions[n], n, k);
    }
  }

  lemma {:induction false} RunAccount(ss: seq<System>, actions: seq<Action>, n: nat)
    requires Run(ss, actions) && n <= |actions|
    ensures |ss[n].attempts| == Adds(actions, n)
    ensures Sum(ss[n].attempts) == Takes(actions, n)
    ensures n + Measure(ss[n]) <= Allowance(Adds(actions, n))
  {
    if n == 0 {
      assert Potentials(ss[0]) == map[];
    } else {
      RunAccount(ss, actions, n - 1);
      RunStep(ss, actions, n - 1, Adds(actions, n - 1));
    }
  }

  /** No event is lost or duplicated, and none is tried more than 301 times, in any run. */
  lemma EventsConserved(ss: seq<System>, actions: seq<Action>, n: nat, e: nat)
    requires Run(ss, actions) && n <= |actions| && e in Added(ss[n])
    ensures Places(ss[n], e) == 1
    ensures ss[n].attempts[e] <= 301 && ss[n].q.NumRequeues(e) <= 300
    ensures e in ss[n].dropped ==> ss[n].attempts[e] == 301
  {
    RunInv(ss, actions, n);
    InOnePlace(ss[n], e);
  }

  lemma AttemptsWithinBudget(s: System)
    requires Inv(s)
    ensures forall e | e in s.attempts :: 0 <= s.attempts[e] <= BUDGET
  {
    assert forall e | e in s.attempts :: e in Added(s);
  }

  /** k added events cause at most 301 * k attempts, and every run is finite: each action but an
      addition uses up some of a measure that an addition raises by a constant. */
  lemma RunsAreBounded(ss: seq<System>, actions: seq<Action>)
    requires Run(ss, actions)
    ensures var n := |actions|;
            && Takes(actions, n) <= 301 * Adds(actions, n)
            && n <= Allowance(Adds(actions, n))
  {
    var n := |actions|;
    RunInv(ss, actions, n);
    RunAccount(ss, actions, n);
    AttemptsWithinBudget(ss[n]);
    SumBound(ss[n].attempts, BUDGET);
    MeasureNonNegative(ss[n]);
  }

  /** Where nothing but an addition is possible, every event has succeeded or used up its budget. */
  lemma NothingLeftBehind(ss: seq<System>, actions: seq<Action>, n: nat)
    requires Run(ss, actions) && n <= |actions| && |ss[n].workers| > 0
    requires forall a | Enabled(ss[n], a) :: a.Enqueue?
    ensures Added(ss[n]) == ss[n].succeeded + ss[n].dropped
  {
    RunInv(ss, actions, n);
    IdleMeansSettled(ss[n]);
  }

  lemma IdleMeansSettled(s: System)
    requires Conserved(s) && QueueSound(s) && WorkersSound(s) && |s.workers| > 0
    requires forall a | Enabled(s, a) :: a.Enqueue?
    ensures Added(s) == s.succeeded + s.dropped
  {
    forall i | 0 <= i < |s.workers|
      ensures s.workers[i].Idle?
    {
      assert !Enabled(s, Return(i, true)) && !Enabled(s, Tell(i)) && !Enabled(s, Finish(i));
    }
    assert !Enabled(s, Take(0));
    assert s.q.processing == {};
    forall e
      ensures e !in s.q.delayed && e !in Processing(s)
    {
      assert !Enabled(s, Expire(e));
      InProcessing(s, e);
    }
  }

  /** Taking an event, attempting it and settling it, as one worker does in one go, is four of the
      actions above. */
  lemma ItemIsFourActions(s: System, w: nat, ok: bool)
    requires Inv(s) && Enabled(s, Take(w))
    ensures var e := s.q.order[0];
            var s1 := Next(s, Take(w));
            && Enabled(s1, Return(w, ok)) && Enabled(Next(s1, Return(w, ok)), Tell(w))
            && Enabled(Next(Next(s1, Return(w, ok)), Tell(w)), Finish(w))
            && Next(Next(Next(s1, Return(w, ok)), Tell(w)), Finish(w)).q == s.q.Get().Settle(e, ok).Done(e)
  {
  }
}
