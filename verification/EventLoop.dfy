/** Queueing of events by the informer's handlers, and their processing by a worker. */
module EventLoops {
  import opened Common
  import opened Strings
  import opened Types
  import opened Cloud
  import opened Plans
  import opened Steps
  import opened Stages
  import opened Controllers
  import Sql
  import WorkQueue
  import Runs

  /** Every event holds copies made for it alone. */
  datatype Event = AddEvent(newObj: Rds) | DelEvent(newObj: Rds) | UpdateEvent(oldObj: Rds, newObj: Rds)

  predicate IsSpace(c: char) {
    || '\t' <= c <= '\r' || '\U{2000}' <= c <= '\U{200A}'
    || c == ' ' || c == '\U{85}' || c == '\U{A0}' || c == '\U{1680}' || c == '\U{2028}' || c == '\U{2029}'
    || c == '\U{202F}' || c == '\U{205F}' || c == '\U{3000}'
  }

  /** `strings.Fields`: the words between white space. `word` is the one being read. */
  function Words(s: string, word: string): seq<string> {
    if s == "" then (if word == "" then [] else [word])
    else if IsSpace(s[0]) then (if word == "" then [] else [word]) + Words(s[1..], "")
    else Words(s[1..], word + [s[0]])
  }

  /** `w` stands at `i` in `s`, between white space or the ends. */
  predicate WordAt(s: string, w: string, i: nat) {
    && w != "" && (forall k | 0 <= k < |w| :: !IsSpace(w[k]))
    && i + |w| <= |s| && s[i..i + |w|] == w
    && (i == 0 || IsSpace(s[i - 1])) && (i + |w| == |s| || IsSpace(s[i + |w|]))
  }

  predicate HasWord(s: string, w: string) {
    exists i: nat | i <= |s| :: WordAt(s, w, i)
  }

  lemma NotAcross(s: string, n: nat, w: string, i: nat)
    requires n < |s| && IsSpace(s[n]) && WordAt(s, w, i)
    ensures i + |w| <= n || i > n
  {
    assert forall k | i <= k < i + |w| :: s[k] == w[k - i];
  }

  /** A word either is what stands before the first white space, or stands after it. */
  lemma BeforeOrAfter(word: string, rest: string, w: string, i: nat)
    requires (forall k | 0 <= k < |word| :: !IsSpace(word[k])) && rest != "" && IsSpace(rest[0])
    requires WordAt(word + rest, w, i)
    ensures if i < |word| then i == 0 && w == word
            else i > |word| && WordAt(rest[1..], w, i - |word| - 1)
  {
    var s, n := word + rest, |word|;
    NotAcross(s, n, w, i);
    if i < n {
      assert s[..n] == word && forall k | 0 <= k < n :: s[k] == word[k];
      assert w == word;
    } else {
      assert rest[1..][i - n - 1..i - n - 1 + |w|] == w;
    }
  }

  lemma StaysWord(word: string, rest: string, w: string, i: nat)
    requires rest != "" && IsSpace(rest[0]) && WordAt(rest[1..], w, i)
    ensures WordAt(word + rest, w, i + |word| + 1)
  {
    var s, n := word + rest, |word| + 1;
    assert s[n..] == rest[1..];
    assert s[i + n..i + n + |w|] == rest[1..][i..i + |w|];
  }

  /** Before white space, a string is its first word. */
  lemma FirstWord(word: string, rest: string, w: string)
    requires (forall k | 0 <= k < |word| :: !IsSpace(word[k])) && rest != "" && IsSpace(rest[0])
    ensures HasWord(word + rest, w) <==> (w != "" && w == word) || HasWord(rest[1..], w)
  {
    var s := word + rest;
    if i: nat :| i <= |s| && WordAt(s, w, i) {
      BeforeOrAfter(word, rest, w, i);
    }
    if w != "" && w == word {
      assert WordAt(s, w, 0);
    }
    if i: nat :| i <= |rest[1..]| && WordAt(rest[1..], w, i) {
      StaysWord(word, rest, w, i);
    }
  }

  lemma {:induction false} WordsFrom(s: string, word: string, w: string)
    requires forall k | 0 <= k < |word| :: !IsSpace(word[k])
    ensures w in Words(s, word) <==> HasWord(word + s, w)
    decreases |s|
  {
    if s == "" {
      assert word + s == word;
      if i: nat :| i <= |word| && WordAt(word, w, i) {
        assert i == 0 && w == word;
      }
      if w in Words(s, word) {
        assert WordAt(word, w, 0);
      }
    } else if IsSpace(s[0]) {
      WordsFrom(s[1..], "", w);
      assert "" + s[1..] == s[1..];
      FirstWord(word, s, w);
    } else {
      WordsFrom(s[1..], word + [s[0]], w);
      assert word + [s[0]] + s[1..] == word + s;
    }
  }

  /** The words of a string are what stands between white space. */
  lemma WordsAre(s: string, w: string)
    ensures w in Words(s, "") <==> HasWord(s, w)
  {
    WordsFrom(s, "", w);
    assert "" + s == s;
  }

  /** A list of two namespaces holds these two. */
  lemma TwoNamespaces(a: string, b: string, w: string)
    requires a != "" && b != ""
    requires forall c | c in a + b :: 'a' <= c <= 'z' || '0' <= c <= '9' || c == '-'
    ensures w in Words(a + " " + b, "") <==> w == a || w == b
  {
    assert forall k | 0 <= k < |a| :: a[k] in a + b;
    assert forall k | 0 <= k < |b| :: b[k] in a + b;
    WordsAre(a + " " + b, w);
    assert a + " " + b == a + (" " + b) && (" " + b)[1..] == b;
    FirstWord(a, " " + b, w);
    WordsFrom("", b, w);
    assert b + "" == b;
  }

  /** An object and the lists that it shares with its copies. */
  ghost function Reach(r: Rds): set<object>
    reads r
  {
    {r} + (if r.databases == null then {} else {r.databases}) + (if r.users == null then {} else {r.users})
  }

  /** A state of the runs with one more event. This is a step `Notify` if its object is what is stored, and
      for a deletion a step `Remove` if it was what was stored until then. */
  ghost function Gaining(s: Runs.State, e: nat, kind: Kind, o: Object): Runs.State {
    s.(events := s.events[e := Runs.Event(kind, o)])
  }

  class EventLoop {
    const controller: Controller
    const watchnamespaces: string
    var queue: WorkQueue.Queue
    var events: map<nat, Event>
    var next: nat

    constructor (controller: Controller, watchnamespaces: string)
      ensures Valid() && events == map[] && queue == WorkQueue.EMPTY
      ensures this.controller == controller && this.watchnamespaces == watchnamespaces
    {
      this.controller, this.watchnamespaces := controller, watchnamespaces;
      queue, events, next := WorkQueue.EMPTY, map[], 0;
    }

    /** Queued numbers denote events, the numbers from `next` on are unused, and no event's objects
        are shared with another's. */
    ghost predicate Valid()
      reads this
    {
      && (forall e | e in queue.order :: e in events)
      && (forall e | e in events :: e < next && (events[e].UpdateEvent? ==> events[e].oldObj != events[e].newObj))
      && (forall e, f | e in events && f in events && e != f :: events[e].newObj != events[f].newObj)
      && (forall e, f | e in events && f in events && events[f].UpdateEvent? :: events[e].newObj != events[f].oldObj)
      && queue.dirty <= events.Keys
    }

    ghost function Objects(): set<Rds>
      reads this
    {
      set e | e in events :: events[e].newObj
    }

    predicate Watches(namespace: string) {
      var w := Words(watchnamespaces, "");
      namespace in w || "*" in w
    }

    ghost function KindOf(ev: Event): Kind
      reads if ev.UpdateEvent? then {ev.oldObj, ev.newObj} else {}
      reads if ev.UpdateEvent? then Reach(ev.oldObj) + Reach(ev.newObj) else {}
    {
      match ev
      case AddEvent(_) => Adding
      case DelEvent(_) => Deleting
      case UpdateEvent(oldObj, newObj) => Updating(controller.ChangeOf(oldObj, newObj))
    }

    ghost function AbsEvent(ev: Event): Runs.Event
      reads ev.newObj
      reads if ev.UpdateEvent? then {ev.oldObj, ev.newObj} else {}
      reads if ev.UpdateEvent? then Reach(ev.oldObj) + Reach(ev.newObj) else {}
    {
      Runs.Event(KindOf(ev), ev.newObj.Value())
    }

    /** Cloud, store and events as a state of the runs. */
    ghost function Abs(): Runs.State
      reads *
    {
      Runs.State(controller.backend.cloud, controller.backend.store, map e | e in events :: AbsEvent(events[e]))
    }

    /** Nothing that the event refers to has changed, except for the status of its object. */
    twostate predicate Untouched(ev: Event)
      reads *
    {
      KindOf(ev) == old(KindOf(ev)) && ev.newObj.Value() == old(ev.newObj.Value()).(status := ev.newObj.status)
    }

    twostate lemma EventsAfter(e: nat)
      requires e in events && events == old(events)
      requires forall x | x in events :: Untouched(events[x]) && (x != e ==> unchanged(events[x].newObj))
      ensures Abs().events == old(Abs()).events[e := old(Abs()).events[e].(obj := events[e].newObj.Value())]
    {
    }

    /** The change of state that one attempt at event `e` makes, other events left alone, is a step of the
        runs. */
    twostate lemma AttemptIsStep(e: nat, new seen: Option<Instance>, made: string, r: Outcome)
      requires e in events && events == old(events)
      requires forall x | x in events :: Untouched(events[x]) && (x != e ==> unchanged(events[x].newObj))
      requires Processed(old(controller.Now()), controller.Now(), old(KindOf(events[e])),
                 old(events[e].newObj.Value()), events[e].newObj.Value(), old(Sql.EntriesOf(events[e].newObj)),
                 seen, made, r)
      ensures var es := NewEntries(old(controller.Now()), controller.Now());
              Runs.Step(old(Abs()), Runs.Attempt(e, events[e].newObj.Value(), seen, made, es, r), Abs())
    {
      EventsAfter(e);
    }

    twostate lemma AbsKept()
      requires unchanged(this) && unchanged(controller.backend)
      requires forall x | x in events :: KindOf(events[x]) == old(KindOf(events[x]))
      requires forall x | x in events :: events[x].newObj.Value() == old(events[x].newObj.Value())
      ensures Abs() == old(Abs())
    {
    }

    method Put(ev: Event)
      requires next !in events
      modifies this
      ensures events == old(events)[old(next) := ev] && queue == old(queue).Add(old(next)) && next == old(next) + 1
      ensures Abs() == Gaining(old(Abs()), old(next), KindOf(ev), ev.newObj.Value())
    {
      events := events[next := ev];
      queue := queue.Add(next);
      next := next + 1;
      forall x | x in old(events)
        ensures AbsEvent(events[x]) == old(AbsEvent(events[x]))
      {
        var ev := events[x];
        assert ev.newObj.Value() == old(ev.newObj.Value());
        if ev.UpdateEvent? {
          assert controller.ChangeOf(ev.oldObj, ev.newObj) == old(controller.ChangeOf(ev.oldObj, ev.newObj));
        }
      }
    }

    /** A namespace is watched if it stands among the words of the configuration, or "*" does. */
    lemma WatchesIff(namespace: string)
      ensures Watches(namespace) <==> HasWord(watchnamespaces, namespace) || HasWord(watchnamespaces, "*")
    {
      WordsAre(watchnamespaces, namespace);
      WordsAre(watchnamespaces, "*");
    }

    /** Adds an event under an unused number, so that the queue never merges it with another. */
    method Enqueue(ev: Event)
      requires Valid()
      requires ev.UpdateEvent? ==> ev.oldObj != ev.newObj
      requires forall e | e in events :: events[e].newObj != ev.newObj
      requires forall e | e in events && events[e].UpdateEvent? :: events[e].oldObj != ev.newObj
      requires ev.UpdateEvent? ==> forall e | e in events :: events[e].newObj != ev.oldObj
      modifies this
      ensures Valid()
      ensures old(next) !in old(events) && events == old(events)[old(next) := ev]
      ensures old(next) !in old(queue).dirty && queue == old(queue).Add(old(next))
      ensures Abs() == Gaining(old(Abs()), old(next), KindOf(ev), ev.newObj.Value())
    {
      assert next !in queue.dirty;
      Put(ev);
    }

    method OnAdd(rds: Rds)
      requires Valid()
      modifies this
      ensures Valid()
      ensures !Watches(rds.namespace) ==> unchanged(this)
      ensures Watches(rds.namespace) ==>
                && old(next) in events && events == old(events)[old(next) := events[old(next)]]
                && events[old(next)].AddEvent? && fresh(events[old(next)].newObj)
                && IsCopy(rds, events[old(next)].newObj) && queue == old(queue).Add(old(next))
      ensures Watches(rds.namespace) ==>
                Abs() == Gaining(old(Abs()), old(next), KindOf(events[old(next)]), rds.Value())
    {
      if Watches(rds.namespace) {
        var copy := rds.DeepCopy();
        AbsKept();
        Enqueue(AddEvent(copy));
      }
    }

    method OnDelete(rds: Rds)
      requires Valid()
      modifies this
      ensures Valid()
      ensures !Watches(rds.namespace) ==> unchanged(this)
      ensures Watches(rds.namespace) ==>
                && old(next) in events && events == old(events)[old(next) := events[old(next)]]
                && events[old(next)].DelEvent? && fresh(events[old(next)].newObj)
                && IsCopy(rds, events[old(next)].newObj) && queue == old(queue).Add(old(next))
      ensures Watches(rds.namespace) ==>
                Abs() == Gaining(old(Abs()), old(next), KindOf(events[old(next)]), rds.Value())
    {
      if Watches(rds.namespace) {
        var copy := rds.DeepCopy();
        AbsKept();
        Enqueue(DelEvent(copy));
      }
    }

    method CopyBoth(oldRds: Rds, rds: Rds) returns (oldCopy: Rds, newCopy: Rds)
      ensures fresh(oldCopy) && fresh(newCopy) && oldCopy != newCopy
      ensures IsCopy(oldRds, oldCopy) && IsCopy(rds, newCopy)
      ensures oldRds == rds ==> IsResync(KindOf(UpdateEvent(oldCopy, newCopy)), rds.Value())
      ensures Abs() == old(Abs())
    {
      oldCopy := oldRds.DeepCopy();
      newCopy := rds.DeepCopy();
      AbsKept();
    }

    /** A resync passes the stored object twice; no attempt at such an event provisions users. */
    method OnUpdate(oldRds: Rds, rds: Rds)
      requires Valid()
      modifies this
      ensures Valid()
      ensures !Watches(rds.namespace) ==> unchanged(this)
      ensures Watches(rds.namespace) ==>
                && old(next) in events && events == old(events)[old(next) := events[old(next)]]
                && events[old(next)].UpdateEvent? && fresh(events[old(next)].newObj) && fresh(events[old(next)].oldObj)
                && IsCopy(rds, events[old(next)].newObj) && IsCopy(oldRds, events[old(next)].oldObj)
                && queue == old(queue).Add(old(next))
                && (oldRds == rds ==> IsResync(KindOf(events[old(next)]), rds.Value()))
      ensures Watches(rds.namespace) ==>
                Abs() == Gaining(old(Abs()), old(next), KindOf(events[old(next)]), rds.Value())
    {
      if Watches(rds.namespace) {
        var oldCopy, newCopy := CopyBoth(oldRds, rds);
        Enqueue(UpdateEvent(oldCopy, newCopy));
      }
    }

    method ProcessEvent(ev: Event) returns (r: Outcome, ghost seen: Option<Instance>, ghost made: string)
      requires ev.UpdateEvent? ==> ev.oldObj != ev.newObj
      modifies controller.backend, ev.newObj`status, controller.db, controller.ces
      ensures Processed(old(controller.Now()), controller.Now(), old(KindOf(ev)),
                old(ev.newObj.Value()), ev.newObj.Value(), old(Sql.EntriesOf(ev.newObj)), seen, made, r)
    {
      seen, made := None, "";
      match ev
      case AddEvent(newObj) => r, made := controller.Create(newObj);
      case DelEvent(newObj) => r := controller.Delete(newObj);
      case UpdateEvent(oldObj, newObj) => r, seen := controller.ProcessUpdateRds(oldObj, newObj);
    }

    method Take() returns (e: nat)
      requires Valid() && queue.order != []
      modifies this`queue
      ensures Valid()
      ensures e == old(queue.order)[0] && e in events && queue == old(queue).Get()
    {
      e := queue.order[0];
      queue := queue.Get();
    }

    /** Makes one attempt at an event that was taken from the queue. After a panic there is no conclusion. */
    method ProcessTaken(e: nat) returns (r: Outcome, ghost seen: Option<Instance>, ghost made: string)
      requires Valid() && e in events
      modifies this`queue, controller.backend, events[e].newObj`status, controller.db, controller.ces
      ensures Valid()
      ensures queue == if r.Panic? then old(queue) else old(queue).Settle(e, r.Ok?).Done(e)
      ensures Processed(old(controller.Now()), controller.Now(), old(KindOf(events[e])),
                old(events[e].newObj.Value()), events[e].newObj.Value(), old(Sql.EntriesOf(events[e].newObj)),
                seen, made, r)
      ensures forall x | x in events && x != e :: unchanged(events[x].newObj)
    {
      r, seen, made := ProcessEvent(events[e]);
      if !r.Panic? {
        Conclude(e, r.Ok?);
      }
    }

    ghost function Taken(): set<Rds>
      requires Valid()
      reads this
    {
      if queue.order == [] then {} else {events[queue.order[0]].newObj}
    }

    /** Takes one event and makes one attempt at it. An empty queue stands for a shutdown. Of all
        queued objects only the status of the one at hand changes, and what the next attempt compares and
        converges to stays as it is. */
    method ProcessNextItem() returns (more: bool, r: Outcome, ghost seen: Option<Instance>, ghost made: string)
      requires Valid()
      modifies this`queue, controller.backend, Taken()`status, controller.db, controller.ces
      ensures Valid()
      ensures more <==> old(queue.order) != []
      ensures !more ==> queue == old(queue) && controller.Now() == old(controller.Now()) && unchanged(Objects())
      ensures more ==>
                var e := old(queue.order)[0];
                && queue == (if r.Panic? then old(queue).Get() else old(queue).Get().Settle(e, r.Ok?).Done(e))
                && Processed(old(controller.Now()), controller.Now(), old(KindOf(events[queue.order[0]])),
                     old(events[queue.order[0]].newObj.Value()), events[e].newObj.Value(),
                     old(Sql.EntriesOf(events[queue.order[0]].newObj)), seen, made, r)
                && (forall x | x in events && x != e :: unchanged(events[x].newObj))
    {
      more := queue.order != [];
      r, seen, made := Ok, None, "";
      if more {
        ghost var first := queue.order[0];
        ghost var w0, kind, entries := controller.Now(), KindOf(events[first]), Sql.EntriesOf(events[first].newObj);
        var e := Take();
        assert controller.Now() == w0 && KindOf(events[e]) == kind && Sql.EntriesOf(events[e].newObj) == entries;
        r, seen, made := ProcessTaken(e);
      }
    }

    method Conclude(e: nat, ok: bool)
      requires Valid() && e in events
      modifies this`queue
      ensures Valid()
      ensures queue == old(queue).Settle(e, ok).Done(e)
    {
      if ok {
        queue := queue.Forget(e);
      } else if queue.NumRequeues(e) < WorkQueue.MAX_RETRIES {
        queue := queue.AddRateLimited(e);
      } else {
        queue := queue.Forget(e);
      }
      queue := queue.Done(e);
    }
  }

  predicate IsCopy(rds: Rds, copy: Rds)
    reads rds, copy
  {
    copy.Value() == rds.Value() && copy.databases == rds.databases && copy.users == rds.users
  }
}
