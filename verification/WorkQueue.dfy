/** The rate-limiting work queue of client-go, as far as the controller uses it, and N workers on it.
    The library is not part of the repository; `Queue` states what is assumed of it. Every queued
    event holds pointers of its own, so events are modelled by distinct numbers. */
module WorkQueue {

  const MAX_RETRIES := 300

  /** `order` waits to be taken, `dirty` needs processing, `delayed` is put off by the rate limiter. */
  datatype Queue = Queue(
    order: seq<nat>, dirty: set<nat>, processing: set<nat>, delayed: set<nat>, failures: map<nat, nat>)
  {
    function Add(e: nat): Queue {
      if e in dirty then this
      else this.(dirty := dirty + {e}, order := if e in processing then order else order + [e])
    }

    function Get(): Queue
      requires order != []
    {
      var e := order[0];
      this.(order := order[1..], dirty := dirty - {e}, processing := processing + {e})
    }

    function Done(e: nat): Queue {
      this.(processing := processing - {e}, order := if e in dirty then order + [e] else order)
    }

    function NumRequeues(e: nat): nat {
      if e in failures then failures[e] else 0
    }

    function AddRateLimited(e: nat): Queue {
      this.(failures := failures[e := NumRequeues(e) + 1], delayed := delayed + {e})
    }

    /** The delay of `e` is over. */
    function Fire(e: nat): Queue {
      this.(delayed := delayed - {e}).Add(e)
    }

    function Forget(e: nat): Queue {
      this.(failures := failures - {e})
    }

    /** What the worker does with the result of one attempt. */
    function Settle(e: nat, ok: bool): Queue {
      if !ok && NumRequeues(e) < MAX_RETRIES then AddRateLimited(e) else Forget(e)
    }
  }

  const EMPTY := Queue([], {}, {}, {}, map[])

  // ----- workers

  datatype Worker =
    | Idle
    | Running(e: nat)              // processEvent is under way
    | Returned(e: nat, ok: bool)   // it returned, the queue has not been told
    | Finishing(e: nat)            // only the deferred Done is left

  datatype System = System(
    q: Queue, workers: seq<Worker>, attempts: map<nat, int>, succeeded: set<nat>, dropped: set<nat>)

  datatype Action =
    Enqueue(e: nat) | Take(w: nat) | Return(w: nat, ok: bool) | Tell(w: nat) | Finish(w: nat) | Expire(e: nat)

  predicate Enabled(s: System, a: Action) {
    match a
    case Enqueue(e) => e !in s.attempts
    case Take(w) => w < |s.workers| && s.workers[w].Idle? && s.q.order != []
    case Return(w, _) => w < |s.workers| && s.workers[w].Running?
    case Tell(w) => w < |s.workers| && s.workers[w].Returned?
    case Finish(w) => w < |s.workers| && s.workers[w].Finishing?
    case Expire(e) => e in s.q.delayed
  }

  function Next(s: System, a: Action): System
    requires Enabled(s, a)
  {
    match a
    case Enqueue(e) => s.(q := s.q.Add(e), attempts := s.attempts[e := 0])
    case Take(w) =>
      var e := s.q.order[0];
      s.(q := s.q.Get(), workers := s.workers[w := Running(e)],
         attempts := s.attempts[e := (if e in s.attempts then s.attempts[e] else 0) + 1])
    case Return(w, ok) => s.(workers := s.workers[w := Returned(s.workers[w].e, ok)])
    case Tell(w) =>
      var Returned(e, ok) := s.workers[w];
      s.(q := s.q.Settle(e, ok), workers := s.workers[w := Finishing(e)],
         succeeded := if ok then s.succeeded + {e} else s.succeeded,
         dropped := if !ok && s.q.NumRequeues(e) >= MAX_RETRIES then s.dropped + {e} else s.dropped)
    case Finish(w) => s.(q := s.q.Done(s.workers[w].e), workers := s.workers[w := Idle])
    case Expire(e) => s.(q := s.q.Fire(e))
  }

  // ----- conservation

  function Added(s: System): set<nat> {
    s.attempts.Keys
  }

  function Waiting(s: System): set<nat> {
    s.q.dirty + s.q.delayed
  }

  predicate Works(w: Worker, e: nat) {
    (w.Running? || w.Returned?) && w.e == e
  }

  predicate Holds(w: Worker, e: nat) {
    !w.Idle? && w.e == e
  }

  function Processing(s: System): set<nat> {
    set w | w in s.workers && (w.Running? || w.Returned?) :: w.e
  }

  /** Every event is in exactly one place. */
  predicate Conserved(s: System) {
    && Added(s) == Waiting(s) + Processing(s) + s.succeeded + s.dropped
    && Waiting(s) !! Processing(s) !! s.succeeded !! s.dropped
  }

  /** What waits is in the queue, or put off, or still held by the worker that requeued it. */
  predicate QueueSound(s: System) {
    && (forall i, j | 0 <= i < j < |s.q.order| :: s.q.order[i] != s.q.order[j])
    && (forall e | e in s.q.order :: e in s.q.dirty && e !in s.q.processing)
    && (forall e | e in s.q.dirty :: e in s.q.order || e in s.q.processing)
    && s.q.dirty !! s.q.delayed
    && s.q.failures.Keys <= Added(s) && s.q.processing <= Added(s)
  }

  predicate WorkersSound(s: System) {
    && (forall w | w in s.workers && !w.Idle? :: w.e in s.q.processing)
    && (forall e | e in s.q.processing :: exists i | 0 <= i < |s.workers| :: Holds(s.workers[i], e))
    && (forall i, j | 0 <= i < j < |s.workers| && !s.workers[i].Idle? && !s.workers[j].Idle? ::
          s.workers[i].e != s.workers[j].e)
  }

  /** The retry budget: one attempt per requeue, and one more while the event is being processed. */
  predicate Budget(s: System) {
    && (forall e | e in Waiting(s) && e in Added(s) :: s.attempts[e] == s.q.NumRequeues(e) <= MAX_RETRIES)
    && (forall e | e in Processing(s) && e in Added(s) :: s.attempts[e] == s.q.NumRequeues(e) + 1 <= MAX_RETRIES + 1)
    && (forall e | e in s.succeeded && e in Added(s) :: 1 <= s.attempts[e] <= MAX_RETRIES + 1 && e !in s.q.failures)
    && (forall e | e in s.dropped && e in Added(s) :: s.attempts[e] == MAX_RETRIES + 1 && e !in s.q.failures)
  }

  predicate Inv(s: System) {
    Conserved(s) && QueueSound(s) && WorkersSound(s) && Budget(s)
  }

  function Start(workers: nat): System {
    System(EMPTY, seq(workers, _ => Idle), map[], {}, {})
  }

  lemma StartInv(workers: nat)
    ensures Inv(Start(workers))
  {
  }

  lemma InProcessing(s: System, e: nat)
    ensures e in Processing(s) <==> exists i | 0 <= i < |s.workers| :: Works(s.workers[i], e)
  {
    if i :| 0 <= i < |s.workers| && Works(s.workers[i], e) {
      assert s.workers[i] in s.workers;
    }
  }

  lemma ProcessingAfter(s: System, w: nat, v: Worker)
    requires WorkersSound(s) && w < |s.workers|
    ensures var t := s.(workers := s.workers[w := v]);
            forall e :: e in Processing(t) <==>
              Works(v, e) || (e in Processing(s) && !Holds(s.workers[w], e))
  {
    var t := s.(workers := s.workers[w := v]);
    forall e
      ensures e in Processing(t) <==> Works(v, e) || (e in Processing(s) && !Holds(s.workers[w], e))
    {
      InProcessing(s, e);
      InProcessing(t, e);
      if i :| 0 <= i < |t.workers| && Works(t.workers[i], e) {
        assert i != w ==> Works(s.workers[i], e);
      }
      if Works(v, e) {
        assert Works(t.workers[w], e);
      }
      if i :| 0 <= i < |s.workers| && Works(s.workers[i], e) && i != w {
        assert Works(t.workers[i], e);
      }
    }
  }

  lemma HeldAfter(s: System, w: nat, v: Worker, p: set<nat>)
    requires WorkersSound(s) && w < |s.workers|
    requires v.Idle? || s.workers[w].Idle? || v.e == s.workers[w].e
    requires s.workers[w].Idle? && !v.Idle? ==> v.e !in s.q.processing && p == s.q.processing + {v.e}
    requires !s.workers[w].Idle? && !v.Idle? ==> p == s.q.processing
    requires !s.workers[w].Idle? && v.Idle? ==> p == s.q.processing - {s.workers[w].e}
    requires !(s.workers[w].Idle? && v.Idle?)
    ensures WorkersSound(s.(workers := s.workers[w := v], q := s.q.(processing := p)))
  {
    var t := s.(workers := s.workers[w := v], q := s.q.(processing := p));
    forall x | x in t.workers && !x.Idle?
      ensures x.e in p
    {
      var i :| 0 <= i < |t.workers| && t.workers[i] == x;
      if i != w {
        assert s.workers[i] in s.workers;
      } else {
        assert s.workers[w] in s.workers;
      }
    }
    forall e | e in p
      ensures exists i | 0 <= i < |t.workers| :: Holds(t.workers[i], e)
    {
      if Holds(v, e) {
        assert Holds(t.workers[w], e);
      } else {
        var i :| 0 <= i < |s.workers| && Holds(s.workers[i], e);
        assert Holds(t.workers[i], e);
      }
    }
    forall i, j | 0 <= i < j < |t.workers| && !t.workers[i].Idle? && !t.workers[j].Idle?
      ensures t.workers[i].e != t.workers[j].e
    {
      assert s.workers[i] in s.workers && s.workers[j] in s.workers;
    }
  }

  /** Every action of every worker, in any interleaving, keeps the invariant. */
  lemma StepInv(s: System, a: Action)
    requires Inv(s) && Enabled(s, a)
    ensures Inv(Next(s, a))
  {
    match a
    case Enqueue(e) => EnqueueInv(s, e);
    case Take(w) => TakeInv(s, w);
    case Return(w, ok) => ReturnInv(s, w, ok);
    case Tell(w) => TellInv(s, w);
    case Finish(w) => FinishInv(s, w);
    case Expire(e) => ExpireInv(s, e);
  }

  lemma SameWorkers(s: System, t: System)
    requires s.workers == t.workers
    ensures Processing(s) == Processing(t)
    ensures WorkersSound(s) && s.q.processing == t.q.processing ==> WorkersSound(t)
  {
  }

  lemma EnqueueInv(s: System, e: nat)
    requires Inv(s) && Enabled(s, Enqueue(e))
    ensures Inv(Next(s, Enqueue(e)))
  {
    var t := Next(s, Enqueue(e));
    SameWorkers(s, t);
    assert e !in Added(s);
    assert Waiting(t) == Waiting(s) + {e};
  }

  lemma TakeMoves(s: System, w: nat)
    requires Inv(s) && Enabled(s, Take(w))
    ensures var t, e := Next(s, Take(w)), s.q.order[0];
            && e in Waiting(s) && e !in s.q.processing
            && Processing(t) == Processing(s) + {e} && Waiting(t) == Waiting(s) - {e}
  {
    var t, e := Next(s, Take(w)), s.q.order[0];
    assert e in s.q.order;
    ProcessingAfter(s, w, Running(e));
    SameWorkers(t, s.(workers := t.workers));
  }

  lemma TakeWorkers(s: System, w: nat)
    requires Inv(s) && Enabled(s, Take(w))
    ensures WorkersSound(Next(s, Take(w)))
  {
    var t, e := Next(s, Take(w)), s.q.order[0];
    TakeMoves(s, w);
    HeldAfter(s, w, Running(e), s.q.processing + {e});
    SameWorkers(s.(workers := t.workers, q := s.q.(processing := s.q.processing + {e})), t);
  }

  lemma TakeInv(s: System, w: nat)
    requires Inv(s) && Enabled(s, Take(w))
    ensures Inv(Next(s, Take(w)))
  {
    TakeMoves(s, w);
    TakeWorkers(s, w);
    TakeQueue(s, w);
  }

  lemma TakeQueue(s: System, w: nat)
    requires Conserved(s) && QueueSound(s) && Enabled(s, Take(w))
    ensures QueueSound(Next(s, Take(w)))
  {
    var e := s.q.order[0];
    assert e in s.q.order && e in Waiting(s) && e in Added(s);
    assert forall x | x in s.q.order[1..] :: x in s.q.order && x != e;
  }

  lemma ReturnInv(s: System, w: nat, ok: bool)
    requires Inv(s) && Enabled(s, Return(w, ok))
    ensures Inv(Next(s, Return(w, ok)))
  {
    var t, e := Next(s, Return(w, ok)), s.workers[w].e;
    ProcessingAfter(s, w, Returned(e, ok));
    HeldAfter(s, w, Returned(e, ok), s.q.processing);
    InProcessing(s, e);
    assert Processing(t) == Processing(s);
  }

  lemma TellMoves(s: System, w: nat)
    requires Inv(s) && Enabled(s, Tell(w))
    ensures var t, e := Next(s, Tell(w)), s.workers[w].e;
            && e in Processing(s) && e !in Waiting(s) && e !in s.q.order
            && Processing(t) == Processing(s) - {e}
  {
    var t, e := Next(s, Tell(w)), s.workers[w].e;
    ProcessingAfter(s, w, Finishing(e));
    assert Works(s.workers[w], e);
    InProcessing(s, e);
    SameWorkers(t, s.(workers := t.workers));
  }

  lemma TellWorkers(s: System, w: nat)
    requires WorkersSound(s) && Enabled(s, Tell(w))
    ensures WorkersSound(Next(s, Tell(w)))
  {
    var t, e := Next(s, Tell(w)), s.workers[w].e;
    HeldAfter(s, w, Finishing(e), s.q.processing);
    SameWorkers(s.(workers := t.workers, q := s.q.(processing := s.q.processing)), t);
  }

  lemma TellInv(s: System, w: nat)
    requires Inv(s) && Enabled(s, Tell(w))
    ensures Inv(Next(s, Tell(w)))
  {
    TellMoves(s, w);
    TellWorkers(s, w);
    TellConserved(s, w);
  }

  lemma TellConserved(s: System, w: nat)
    requires Inv(s) && Enabled(s, Tell(w))
    ensures Conserved(Next(s, Tell(w))) && QueueSound(Next(s, Tell(w)))
  {
    TellMoves(s, w);
    var t, e := Next(s, Tell(w)), s.workers[w].e;
    assert Waiting(t) == if e in t.q.delayed then Waiting(s) + {e} else Waiting(s);
  }

  lemma FinishWorkers(s: System, w: nat)
    requires WorkersSound(s) && Enabled(s, Finish(w))
    ensures WorkersSound(Next(s, Finish(w))) && Processing(Next(s, Finish(w))) == Processing(s)
  {
    var t, e := Next(s, Finish(w)), s.workers[w].e;
    assert s.workers[w] in s.workers;
    FinishingIsSettled(s, w);
    ProcessingAfter(s, w, Idle);
    HeldAfter(s, w, Idle, s.q.processing - {e});
    SameWorkers(s.(workers := t.workers, q := s.q.(processing := s.q.processing - {e})), t);
    SameWorkers(t, s.(workers := t.workers));
  }

  lemma FinishInv(s: System, w: nat)
    requires Inv(s) && Enabled(s, Finish(w))
    ensures Inv(Next(s, Finish(w)))
  {
    assert s.workers[w] in s.workers;
    FinishWorkers(s, w);
  }

  lemma FinishingIsSettled(s: System, w: nat)
    requires WorkersSound(s) && w < |s.workers| && s.workers[w].Finishing?
    ensures s.workers[w].e !in Processing(s)
  {
    InProcessing(s, s.workers[w].e);
  }

  lemma ExpireInv(s: System, e: nat)
    requires Inv(s) && Enabled(s, Expire(e))
    ensures Inv(Next(s, Expire(e)))
  {
    var t := Next(s, Expire(e));
    SameWorkers(s, t);
    assert Waiting(t) == Waiting(s);
  }

  /** Where an event is, counted. */
  function Places(s: System, e: nat): nat {
    (if e in Waiting(s) then 1 else 0) + (if e in Processing(s) then 1 else 0)
    + (if e in s.succeeded then 1 else 0) + (if e in s.dropped then 1 else 0)
  }

  lemma InOnePlace(s: System, e: nat)
    requires Conserved(s)
    ensures Places(s, e) == if e in Added(s) then 1 else 0
  {
  }
}
