/** Serial runs of users, informer, workers and alarm receiver: what holds after every action,
    whichever calls have failed. */
module Runs {
  import opened Common
  import opened Types
  import opened Cloud
  import opened Plans
  import opened Steps

  datatype Event = Event(kind: Kind, obj: Object)

  /** The cloud, the Kubernetes store, and the events that are queued or being retried. */
  datatype State = State(cloud: Cloud, store: Store, events: map<nat, Event>)

  datatype Action =
    | Write(o: Object)              // a user creates or edits an object; an id is only ever kept or removed
    | Remove(key: Key, e: nat)      // a user deletes an object, the informer queues the event
    | Notify(e: nat, key: Key, kind: Kind)                   // the informer queues a stored object
    | Attempt(e: nat, p: Object, seen: Option<Instance>, made: string, es: seq<Entry>, r: Outcome)
    | Retire(e: nat)                // the event has succeeded or used up its retries
    | Raise(key: Key, o: Object)    // the alarm receiver writes a larger volume or another flavour
    | Drift(id: string, flavor: string)                      // someone else changes a flavour

  ghost predicate Step(s: State, a: Action, s': State) {
    match a
    case Write(o) =>
      && (o.status.id == "" || (KeyOf(o) in s.store && o.status.id == s.store[KeyOf(o)].status.id))
      && s' == s.(store := s.store[KeyOf(o) := o])
    case Remove(key, e) =>
      && key in s.store && e !in s.events
      && s' == s.(store := s.store - {key}, events := s.events[e := Event(Deleting, s.store[key])])
    case Notify(e, key, kind) =>
      && key in s.store && e !in s.events && kind != Deleting
      && s' == s.(events := s.events[e := Event(kind, s.store[key])])
    case Attempt(e, p, seen, made, es, r) =>
      && e in s.events
      && s'.events == s.events[e := s.events[e].(obj := p)]
      && EventStep(s.events[e].kind, s.cloud, s'.cloud, s.store, s'.store, s.events[e].obj, p, seen, made, es, r)
    case Retire(e) =>
      s' == s.(events := s.events - {e})
    case Raise(key, o) =>
      && key in s.store && KeyOf(o) == key && o.status.id == s.store[key].status.id
      && s' == s.(store := s.store[key := o])
    case Drift(id, flavor) =>
      && id in s.cloud.live
      && s' == s.(cloud := s.cloud.(live := s.cloud.live[id := s.cloud.live[id].(flavor := flavor)]))
  }

  ghost predicate Run(ss: seq<State>, actions: seq<Action>) {
    && |ss| == |actions| + 1
    && forall i | 0 <= i < |actions| :: Step(ss[i], actions[i], ss[i + 1])
  }

  // ----- one instance per name, coherent ids, no deletion without a backup

  ghost predicate Inv(s: State) {
    && Coherent(s.cloud)
    && (forall k | k in s.store :: KeyOf(s.store[k]) == k && IdSound(s.cloud, s.store[k]))
    && (forall e | e in s.events :: IdSound(s.cloud, s.events[e].obj))
    && (forall x | x in s.cloud.names :: x in s.cloud.live || x in s.cloud.backups)
  }

  ghost predicate NamesGrow(c: Cloud, c': Cloud) {
    forall x | x in c.names :: x in c'.names && c'.names[x] == c.names[x]
  }

  lemma InvKept(s: State, s': State)
    requires Inv(s) && NamesGrow(s.cloud, s'.cloud) && Coherent(s'.cloud)
    requires forall x | x in s'.cloud.names :: x in s'.cloud.live || x in s'.cloud.backups
    requires forall k | k in s'.store ::
               && KeyOf(s'.store[k]) == k
               && (IdSound(s'.cloud, s'.store[k]) || (k in s.store && s'.store[k] == s.store[k]))
    requires forall e | e in s'.events ::
               IdSound(s'.cloud, s'.events[e].obj) || (e in s.events && s'.events[e] == s.events[e])
    ensures Inv(s')
  {
  }

  lemma AddInv(s: State, a: Action, s': State)
    requires Inv(s) && Step(s, a, s') && a.Attempt? && s.events[a.e].kind == Adding
    ensures Inv(s')
  {
    var o := s.events[a.e].obj;
    if a.made != "" {
      LaunchedCoherent(s.cloud, s'.cloud, o, a.made);
      assert IdSound(s'.cloud, WithId(o, a.made));
    }
    InvKept(s, s');
  }

  lemma LaunchedCoherent(c: Cloud, c': Cloud, o: Object, id: string)
    requires Coherent(c) && NewInstance(c, c', o, id)
    ensures Coherent(c') && NamesGrow(c, c')
  {
  }

  /** What an attempt at an update event does, for the steps of a run. */
  lemma AttemptUpdates(s: State, a: Action, s': State)
    requires Step(s, a, s') && a.Attempt? && s.events[a.e].kind.Updating?
    requires Coherent(s.cloud) && IdSound(s.cloud, s.events[a.e].obj)
    ensures var o, c, c' := s.events[a.e].obj, s.cloud, s'.cloud;
            && Coherent(c') && c'.names == c.names && c'.backups == c.backups && c'.live.Keys == c.live.Keys
            && (forall x | x in c.live && x != o.status.id :: c'.live[x] == c.live[x])
            && (o.status.id in c.live ==>
                  var x, y := c.live[o.status.id], c'.live[o.status.id];
                  && (y.volume == x.volume || y.volume == Max(x.volume, o.spec.volumesize))
                  && (a.seen.Some? && EnlargePassed(o, a.seen.value, a.es) ==>
                        y.volume == Max(x.volume, o.spec.volumesize)))
  {
    var ev := s.events[a.e];
    UpdateEffect(ev.kind.change, s.cloud, s'.cloud, s.store, s'.store, ev.obj, a.p, a.seen, a.es, a.r);
  }

  lemma UpdateInv(s: State, a: Action, s': State)
    requires Inv(s) && Step(s, a, s') && a.Attempt? && s.events[a.e].kind.Updating?
    ensures Inv(s')
  {
    AttemptUpdates(s, a, s');
    InvKept(s, s');
  }

  lemma DeleteInv(s: State, a: Action, s': State)
    requires Inv(s) && Step(s, a, s') && a.Attempt? && s.events[a.e].kind == Deleting
    ensures Inv(s')
  {
    InvKept(s, s');
  }

  lemma StepInv(s: State, a: Action, s': State)
    requires Inv(s) && Step(s, a, s')
    ensures Inv(s')
  {
    match a
    case Attempt(e, _, _, _, _, _) =>
      match s.events[e].kind {
        case Adding => AddInv(s, a, s');
        case Updating(_) => UpdateInv(s, a, s');
        case Deleting => DeleteInv(s, a, s');
      }
    case _ => InvKept(s, s');
  }

  /** In every run there is at most one live instance per name, every id that create recorded was issued
      for that object, and an instance that is gone has a completed backup. */
  lemma {:induction false} RunInv(ss: seq<State>, actions: seq<Action>, n: nat)
    requires Run(ss, actions) && n <= |actions| && Inv(ss[0])
    ensures Inv(ss[n])
  {
    if n > 0 {
      RunInv(ss, actions, n - 1);
      StepInv(ss[n - 1], actions[n - 1], ss[n]);
    }
  }

  // ----- the volume

  /** Instances keep their names and never shrink; ids are not reused. */
  ghost predicate Grown(c: Cloud, c': Cloud) {
    && NamesGrow(c, c')
    && (forall x | x in c'.live && x in c.names :: x in c.live && c.live[x].volume <= c'.live[x].volume)
  }

  lemma StepGrows(s: State, a: Action, s': State)
    requires Inv(s) && Step(s, a, s')
    ensures Grown(s.cloud, s'.cloud)
  {
    if a.Attempt? {
      if s.events[a.e].kind.Updating? {
        AttemptUpdates(s, a, s');
      }
    }
  }

  lemma {:induction false} RunGrows(ss: seq<State>, actions: seq<Action>, m: nat, n: nat)
    requires Run(ss, actions) && m <= n <= |actions| && Inv(ss[0])
    ensures Grown(ss[m].cloud, ss[n].cloud)
  {
    if m < n {
      RunGrows(ss, actions, m, n - 1);
      RunInv(ss, actions, n - 1);
      StepGrows(ss[n - 1], actions[n - 1], ss[n]);
    }
  }

  /** No write to the object of that name asks for more than `limit`. */
  predicate Within(a: Action, name: string, limit: int) {
    ((a.Write? || a.Raise?) && NameOf(a.o) == name) ==> a.o.spec.volumesize <= limit
  }

  ghost predicate Bounded(s: State, name: string, limit: int) {
    && (forall x | x in s.cloud.live && s.cloud.live[x].name == name :: s.cloud.live[x].volume <= limit)
    && (forall k | k in s.store && NameOf(s.store[k]) == name :: s.store[k].spec.volumesize <= limit)
    && (forall e | e in s.events && NameOf(s.events[e].obj) == name :: s.events[e].obj.spec.volumesize <= limit)
  }

  lemma StepBounded(s: State, a: Action, s': State, name: string, limit: int)
    requires Inv(s) && Step(s, a, s') && Bounded(s, name, limit) && Within(a, name, limit)
    ensures Bounded(s', name, limit)
  {
    if a.Attempt? {
      if s.events[a.e].kind.Updating? {
        UpdateBounded(s, a, s', name, limit);
      } else if s.events[a.e].kind == Adding {
        AddBounded(s, a, s', name, limit);
      }
    }
  }

  lemma StoreBounded(s: Store, s': Store, o: Object, name: string, limit: int)
    requires Touched(s, s', o) && (NameOf(o) == name ==> o.spec.volumesize <= limit)
    requires forall k | k in s && NameOf(s[k]) == name :: s[k].spec.volumesize <= limit
    ensures forall k | k in s' && NameOf(s'[k]) == name :: s'[k].spec.volumesize <= limit
  {
  }

  lemma CloudBounded(s: State, a: Action, s': State, name: string, limit: int)
    requires Inv(s) && Step(s, a, s') && Bounded(s, name, limit) && a.Attempt? && s.events[a.e].kind.Updating?
    ensures forall x | x in s'.cloud.live && s'.cloud.live[x].name == name :: s'.cloud.live[x].volume <= limit
  {
    var o := s.events[a.e].obj;
    AttemptUpdates(s, a, s');
    if o.status.id != "" && o.status.id in s.cloud.live {
      assert s.cloud.live[o.status.id].name == NameOf(o);
    }
  }

  lemma UpdateBounded(s: State, a: Action, s': State, name: string, limit: int)
    requires Inv(s) && Step(s, a, s') && Bounded(s, name, limit) && a.Attempt? && s.events[a.e].kind.Updating?
    ensures Bounded(s', name, limit)
  {
    CloudBounded(s, a, s', name, limit);
    StoreBounded(s.store, s'.store, s.events[a.e].obj, name, limit);
  }

  lemma AddBounded(s: State, a: Action, s': State, name: string, limit: int)
    requires Step(s, a, s') && Bounded(s, name, limit) && a.Attempt? && s.events[a.e].kind == Adding
    ensures Bounded(s', name, limit)
  {
    var o := s.events[a.e].obj;
    if a.made != "" {
      StoreBounded(s.store, s'.store, WithId(o, a.made), name, limit);
    }
  }

  /** The volume of an instance never exceeds the larger of what it, its stored object and its queued
      events started with and the greatest size ever submitted for its object. */
  lemma {:induction false} RunBounded(ss: seq<State>, actions: seq<Action>, n: nat, name: string, limit: int)
    requires Run(ss, actions) && n <= |actions| && Inv(ss[0]) && Bounded(ss[0], name, limit)
    requires forall i | 0 <= i < n :: Within(actions[i], name, limit)
    ensures Bounded(ss[n], name, limit)
  {
    if n > 0 {
      RunBounded(ss, actions, n - 1, name, limit);
      RunInv(ss, actions, n - 1);
      StepBounded(ss[n - 1], actions[n - 1], ss[n], name, limit);
    }
  }

  /** The action is an attempt at an update of instance `id` whose enlarge stage completed, whatever
      became of the attempt afterwards. */
  predicate CompletesEnlarge(s: State, a: Action, id: string) {
    && a.Attempt? && a.e in s.events && s.events[a.e].kind.Updating? && s.events[a.e].obj.status.id == id
    && a.seen.Some? && EnlargePassed(s.events[a.e].obj, a.seen.value, a.es)
  }

  lemma CompletedEnlargeReaches(s: State, a: Action, s': State, id: string)
    requires Inv(s) && Step(s, a, s') && CompletesEnlarge(s, a, id) && id in s.cloud.live
    ensures id in s'.cloud.live && s.events[a.e].obj.spec.volumesize <= s'.cloud.live[id].volume
  {
    AttemptUpdates(s, a, s');
  }

  lemma EnlargeReached(ss: seq<State>, actions: seq<Action>, m: nat, id: string)
    requires Run(ss, actions) && Inv(ss[0]) && m < |actions| && id in ss[m].cloud.live
    requires CompletesEnlarge(ss[m], actions[m], id)
    ensures id in ss[m + 1].cloud.live
    ensures ss[m].events[actions[m].e].obj.spec.volumesize <= ss[m + 1].cloud.live[id].volume
  {
    RunInv(ss, actions, m);
    CompletedEnlargeReaches(ss[m], actions[m], ss[m + 1], id);
  }

  lemma GrownVolume(ss: seq<State>, actions: seq<Action>, m: nat, n: nat, id: string)
    requires Run(ss, actions) && Inv(ss[0]) && m <= n <= |actions|
    requires id in ss[m].cloud.live && id in ss[n].cloud.live
    ensures ss[m].cloud.live[id].volume <= ss[n].cloud.live[id].volume
  {
    RunInv(ss, actions, m);
    RunGrows(ss, actions, m, n);
  }

  lemma EnlargeLasts(ss: seq<State>, actions: seq<Action>, m: nat, l: nat, n: nat, id: string)
    requires Run(ss, actions) && Inv(ss[0]) && l == m + 1 <= n <= |actions|
    requires id in ss[m].cloud.live && id in ss[n].cloud.live && CompletesEnlarge(ss[m], actions[m], id)
    ensures ss[m].events[actions[m].e].obj.spec.volumesize <= ss[n].cloud.live[id].volume
  {
    EnlargeReached(ss, actions, m, id);
    GrownVolume(ss, actions, l, n, id);
  }

  /** Over every run the volume of an instance only grows, and from an update whose enlarge stage
      completed on it is at least the size that the update asked for. */
  lemma VolumeNeverShrinks(ss: seq<State>, actions: seq<Action>, m: nat, n: nat, id: string)
    requires Run(ss, actions) && Inv(ss[0]) && m < n <= |actions|
    requires id in ss[m].cloud.live && id in ss[n].cloud.live
    ensures ss[m].cloud.live[id].volume <= ss[n].cloud.live[id].volume
    ensures CompletesEnlarge(ss[m], actions[m], id) ==>
              ss[m].events[actions[m].e].obj.spec.volumesize <= ss[n].cloud.live[id].volume
  {
    GrownVolume(ss, actions, m, n, id);
    if CompletesEnlarge(ss[m], actions[m], id) {
      EnlargeLasts(ss, actions, m, m + 1, n, id);
    }
  }

  // ----- retries converge

  /** One attempt at an event with object `o`; `scaled` says that both scale stages completed. */
  ghost predicate AttemptOn(c: Cloud, c': Cloud, o: Object, scaled: bool) {
    exists seen, es :: SeenIn(c, NameOf(o), seen) && Advanced(c, c', Jobs(o, seen), Finished(es)) &&
                       (scaled ==> Scaled(o, seen, es))
  }

  /** Something that does not concern the object's instance. */
  ghost predicate Elsewhere(c: Cloud, c': Cloud, o: Object) {
    && Coherent(c') && NamesGrow(c, c')
    && o.status.id in c.live && o.status.id in c'.live && c'.live[o.status.id] == c.live[o.status.id]
  }

  ghost predicate Retries(cs: seq<Cloud>, o: Object) {
    && |cs| >= 2
    && (forall i | 0 <= i < |cs| - 2 :: AttemptOn(cs[i], cs[i + 1], o, false) || Elsewhere(cs[i], cs[i + 1], o))
    && AttemptOn(cs[|cs| - 2], cs[|cs| - 1], o, true)
  }

  ghost predicate Owns(c: Cloud, o: Object) {
    Coherent(c) && IdSound(c, o) && o.status.id != "" && o.status.id in c.live
  }

  lemma AttemptEffect(c: Cloud, c': Cloud, o: Object, scaled: bool)
    requires AttemptOn(c, c', o, scaled) && Owns(c, o)
    ensures Owns(c', o)
    ensures var a, b := c.live[o.status.id], c'.live[o.status.id];
            && b == a.(volume := b.volume, flavor := b.flavor)
            && (b.volume == a.volume || b.volume == Max(a.volume, o.spec.volumesize))
            && (b.flavor == a.flavor || b.flavor == o.spec.flavorref)
            && (scaled ==> b.volume == Max(a.volume, o.spec.volumesize) && b.flavor == o.spec.flavorref)
  {
    var seen, es :| SeenIn(c, NameOf(o), seen) && Advanced(c, c', Jobs(o, seen), Finished(es)) &&
                    (scaled ==> Scaled(o, seen, es));
    ScaleEffect(c, c', o, seen, es);
    ReadsHitWrites(c, o, seen);
  }

  lemma {:induction false} RetriesStayBetween(cs: seq<Cloud>, o: Object, n: nat)
    requires Retries(cs, o) && Owns(cs[0], o) && n < |cs| - 1
    ensures Owns(cs[n], o)
    ensures var a, b := cs[0].live[o.status.id], cs[n].live[o.status.id];
            b == a.(volume := b.volume, flavor := b.flavor) &&
            (b.volume == a.volume || b.volume == Max(a.volume, o.spec.volumesize))
  {
    if n > 0 {
      RetriesStayBetween(cs, o, n - 1);
      if AttemptOn(cs[n - 1], cs[n], o, false) {
        AttemptEffect(cs[n - 1], cs[n], o, false);
      }
    }
  }

  /** After any number of attempts that stopped anywhere, each call having taken effect or not, one
      attempt whose scale stages complete leaves the instance just as a single such attempt on the initial
      cloud does: with the flavour asked for and the larger of the initial and the requested volume. */
  lemma RetriesConverge(cs: seq<Cloud>, o: Object, once: Cloud)
    requires Retries(cs, o) && Owns(cs[0], o)
    requires AttemptOn(cs[0], once, o, true)
    ensures var id, last := o.status.id, cs[|cs| - 1];
            && Owns(last, o) && id in once.live && last.live[id] == once.live[id]
            && last.live[id].flavor == o.spec.flavorref
            && last.live[id].volume == Max(cs[0].live[id].volume, o.spec.volumesize)
  {
    var n := |cs| - 2;
    RetriesStayBetween(cs, o, n);
    AttemptEffect(cs[n], cs[n + 1], o, true);
    AttemptEffect(cs[0], once, o, true);
  }

  /** The event's object, apart from its refreshed state. */
  ghost predicate Queued(s: State, e: nat, o: Object) {
    e in s.events && s.events[e].kind.Updating? && Kept(o, s.events[e].obj)
  }

  /** An attempt at the event, or an action that leaves the event alone and the volume of its instance;
      its flavour may drift. */
  ghost predicate RetryOrAside(s: State, a: Action, s': State, e: nat, o: Object) {
    || (a.Attempt? && a.e == e)
    || (e in s'.events && e in s.events && s'.events[e] == s.events[e] &&
        o.status.id in s.cloud.live && o.status.id in s'.cloud.live &&
        s'.cloud.live[o.status.id].volume == s.cloud.live[o.status.id].volume)
  }

  /** The action is an attempt at the event whose scale stages completed. */
  predicate CompletesScaling(a: Action, e: nat, o: Object) {
    a.Attempt? && a.e == e && a.seen.Some? && Scaled(o, a.seen.value, a.es)
  }

  lemma KeptJobs(o: Object, p: Object, seen: Instance)
    requires Kept(o, p)
    ensures Jobs(p, seen) == Jobs(o, seen) && NameOf(p) == NameOf(o)
  {
  }

  lemma RetryAttempts(s: State, a: Action, s': State, e: nat, o: Object)
    requires Step(s, a, s') && Queued(s, e, o) && a.Attempt? && a.e == e
    ensures Queued(s', e, o)
    ensures if a.seen.Some? then AttemptOn(s.cloud, s'.cloud, o, CompletesScaling(a, e, o)) else s'.cloud == s.cloud
  {
    if a.seen.Some? {
      KeptJobs(o, s.events[e].obj, a.seen.value);
    }
  }

  lemma RetryEffect(s: State, a: Action, s': State, e: nat, o: Object)
    requires Inv(s') && Step(s, a, s') && Queued(s, e, o) && Owns(s.cloud, o) && RetryOrAside(s, a, s', e, o)
    requires Grown(s.cloud, s'.cloud)
    ensures Queued(s', e, o) && Owns(s'.cloud, o)
    ensures var x, y := s.cloud.live[o.status.id], s'.cloud.live[o.status.id];
            && (y.volume == x.volume || y.volume == Max(x.volume, o.spec.volumesize))
            && (CompletesScaling(a, e, o) ==>
                  y.volume == Max(x.volume, o.spec.volumesize) && y.flavor == o.spec.flavorref)
  {
    if a.Attempt? && a.e == e {
      RetryAttempts(s, a, s', e, o);
      if a.seen.Some? {
        AttemptEffect(s.cloud, s'.cloud, o, CompletesScaling(a, e, o));
      }
    }
  }

  lemma RetryInRun(ss: seq<State>, actions: seq<Action>, i: nat, e: nat, o: Object)
    requires Run(ss, actions) && Inv(ss[0]) && i < |actions|
    requires Queued(ss[i], e, o) && Owns(ss[i].cloud, o) && RetryOrAside(ss[i], actions[i], ss[i + 1], e, o)
    ensures Queued(ss[i + 1], e, o) && Owns(ss[i + 1].cloud, o)
    ensures var a, x, y := actions[i], ss[i].cloud.live[o.status.id], ss[i + 1].cloud.live[o.status.id];
            && (y.volume == x.volume || y.volume == Max(x.volume, o.spec.volumesize))
            && (CompletesScaling(a, e, o) ==>
                  y.volume == Max(x.volume, o.spec.volumesize) && y.flavor == o.spec.flavorref)
  {
    RunInv(ss, actions, i);
    RunInv(ss, actions, i + 1);
    StepGrows(ss[i], actions[i], ss[i + 1]);
    RetryEffect(ss[i], actions[i], ss[i + 1], e, o);
  }

  lemma {:induction false} RunStaysBetween(
    ss: seq<State>, actions: seq<Action>, m: nat, n: nat, e: nat, o: Object)
    requires Run(ss, actions) && Inv(ss[0]) && m <= n <= |actions|
    requires Queued(ss[m], e, o) && Owns(ss[m].cloud, o)
    requires forall i | m <= i < n :: RetryOrAside(ss[i], actions[i], ss[i + 1], e, o)
    ensures Queued(ss[n], e, o) && Owns(ss[n].cloud, o)
    ensures var x, y := ss[m].cloud.live[o.status.id].volume, ss[n].cloud.live[o.status.id].volume;
            y == x || y == Max(x, o.spec.volumesize)
  {
    if m < n {
      RunStaysBetween(ss, actions, m, n - 1, e, o);
      RetryInRun(ss, actions, n - 1, e, o);
    }
  }

  /** The same within a run: from the time an update event is queued, through attempts at it that stop
      anywhere and other actions that leave it and the volume alone, to an attempt whose scale stages
      complete, however that one ends. */
  lemma RunConverges(ss: seq<State>, actions: seq<Action>, m: nat, n: nat, e: nat, o: Object)
    requires Run(ss, actions) && Inv(ss[0]) && m < n <= |actions|
    requires Queued(ss[m], e, o) && Owns(ss[m].cloud, o)
    requires forall i | m <= i < n :: RetryOrAside(ss[i], actions[i], ss[i + 1], e, o)
    requires CompletesScaling(actions[n - 1], e, o)
    ensures Owns(ss[n].cloud, o)
    ensures var x, y := ss[m].cloud.live[o.status.id], ss[n].cloud.live[o.status.id];
            y.flavor == o.spec.flavorref && y.volume == Max(x.volume, o.spec.volumesize)
  {
    RunStaysBetween(ss, actions, m, n - 1, e, o);
    RetryInRun(ss, actions, n - 1, e, o);
  }

  /** A further attempt with the same specification asks for no enlargement and no resize. */
  lemma ConvergedIsQuiet(cs: seq<Cloud>, o: Object, seen: Instance, at: Option<int>, sql: bool)
    requires Retries(cs, o) && Owns(cs[0], o) && SeenIn(cs[|cs| - 1], NameOf(o), seen)
    ensures forall i | 0 <= i < |UpdatePlan(o, seen, at, sql)| :: !Scales(UpdatePlan(o, seen, at, sql)[i])
  {
    var n := |cs| - 2;
    RetriesStayBetween(cs, o, n);
    AttemptEffect(cs[n], cs[n + 1], o, true);
    ReadsHitWrites(cs[n + 1], o, seen);
    ScalesOnlyWhenShort(o, seen, at, sql);
  }

  // ----- what stays with an event

  /** Of an update only address and state change, of an addition only the status, of a deletion nothing. */
  ghost predicate SameRequest(kind: Kind, o: Object, p: Object) {
    match kind
    case Updating(_) => Kept(o, p)
    case Adding => p == o.(status := p.status)
    case Deleting => p == o
  }

  lemma StepKeepsEvent(s: State, a: Action, s': State, e: nat)
    requires Step(s, a, s') && e in s.events && e in s'.events
    ensures s'.events[e].kind == s.events[e].kind
    ensures SameRequest(s.events[e].kind, s.events[e].obj, s'.events[e].obj)
  {
  }

  /** As long as an event is there, its attempts see the same specification and, at an update, compare
      it with the same object. */
  lemma {:induction false} QueuedStays(ss: seq<State>, actions: seq<Action>, m: nat, n: nat, e: nat)
    requires Run(ss, actions) && m <= n <= |actions|
    requires forall i | m <= i <= n :: e in ss[i].events
    ensures ss[n].events[e].kind == ss[m].events[e].kind
    ensures SameRequest(ss[m].events[e].kind, ss[m].events[e].obj, ss[n].events[e].obj)
  {
    if m < n {
      QueuedStays(ss, actions, m, n - 1, e);
      StepKeepsEvent(ss[n - 1], actions[n - 1], ss[n], e);
    }
  }

  lemma StillQueued(ss: seq<State>, actions: seq<Action>, m: nat, n: nat, e: nat, o: Object)
    requires Run(ss, actions) && m <= n <= |actions| && Queued(ss[m], e, o)
    requires forall i | m <= i <= n :: e in ss[i].events
    ensures Queued(ss[n], e, o) && ss[n].events[e].kind == ss[m].events[e].kind
  {
    QueuedStays(ss, actions, m, n, e);
  }

  /** Where provisioning is wanted on an engine that has none, or the restore time cannot be read, no
      attempt that is not skipped ever succeeds. */
  lemma HopelessNeverSucceeds(ss: seq<State>, actions: seq<Action>, m: nat, n: nat, e: nat, o: Object)
    requires Run(ss, actions) && m <= n < |actions| && Queued(ss[m], e, o)
    requires forall i | m <= i <= n :: e in ss[i].events
    requires var ch := ss[m].events[e].kind.change;
             || (ch.sql && !o.status.logs && o.spec.datastoretype != "MySQL")
             || (o.spec.backuprestoretime != "" && ch.at.None?)
    requires actions[n].Attempt? && actions[n].e == e && actions[n].seen.Some?
    ensures !actions[n].r.Ok?
  {
    StillQueued(ss, actions, m, n, e, o);
    assert Step(ss[n], actions[n], ss[n + 1]);
    assert ss[n].events[e].kind.change.Hopeless(ss[n].events[e].obj);
  }

  // ----- resyncs

  lemma ResyncSucceeds(s: State, a: Action, s': State, e: nat, o: Object)
    requires Step(s, a, s') && Queued(s, e, o) && IsResync(s.events[e].kind, o)
    requires a.Attempt? && a.e == e && a.r.Ok?
    ensures CompletesScaling(a, e, o)
  {
    var ch, obj := s.events[e].kind.change, s.events[e].obj;
    assert !ch.Skips(a.p);
    DoneIsScaled(obj, a.seen.value, ch.at, ch.sql, a.es);
  }

  lemma CompletedScalingReaches(s: State, a: Action, s': State, e: nat, o: Object)
    requires Inv(s) && Step(s, a, s') && Queued(s, e, o) && CompletesScaling(a, e, o)
    requires o.status.id in s.cloud.live
    ensures o.status.id in s'.cloud.live
    ensures s'.cloud.live[o.status.id].flavor == o.spec.flavorref
    ensures s'.cloud.live[o.status.id].volume == Max(s.cloud.live[o.status.id].volume, o.spec.volumesize)
  {
    RetryAttempts(s, a, s', e, o);
    AttemptEffect(s.cloud, s'.cloud, o, true);
  }

  /** A resync queues the stored object as old and as new. However the refresh has changed the state of
      the new one, no attempt at it is skipped; and whatever else has gone on since the resync came, once
      one succeeds any drift of the flavour is undone and the volume filled up, to what was stored then. */
  lemma ResyncRepairs(ss: seq<State>, actions: seq<Action>, m: nat, n: nat, e: nat, key: Key, kind: Kind)
    requires Run(ss, actions) && Inv(ss[0]) && m < n < |actions|
    requires actions[m] == Notify(e, key, kind) && key in ss[m].store && IsResync(kind, ss[m].store[key])
    requires forall i | m < i <= n :: e in ss[i].events
    requires actions[n].Attempt? && actions[n].e == e && actions[n].r.Ok?
    requires ss[m].store[key].status.id in ss[n].cloud.live
    ensures actions[n].seen.Some?
    ensures var o := ss[m].store[key];
            && o.status.id in ss[n + 1].cloud.live
            && ss[n + 1].cloud.live[o.status.id].flavor == o.spec.flavorref
            && ss[n + 1].cloud.live[o.status.id].volume == Max(ss[n].cloud.live[o.status.id].volume, o.spec.volumesize)
  {
    ResyncStillQueued(ss, actions, m, n, e, key, kind);
    ResyncReaches(ss, actions, n, e, ss[m].store[key]);
  }

  lemma ResyncStillQueued(ss: seq<State>, actions: seq<Action>, m: nat, n: nat, e: nat, key: Key, kind: Kind)
    requires Run(ss, actions) && m < n <= |actions|
    requires actions[m] == Notify(e, key, kind) && key in ss[m].store && IsResync(kind, ss[m].store[key])
    requires forall i | m < i <= n :: e in ss[i].events
    ensures Queued(ss[n], e, ss[m].store[key]) && ss[n].events[e].kind == kind
  {
    NotifiedQueued(ss, actions, m, e, key, kind);
    StillQueued(ss, actions, m + 1, n, e, ss[m].store[key]);
  }

  lemma NotifiedQueued(ss: seq<State>, actions: seq<Action>, m: nat, e: nat, key: Key, kind: Kind)
    requires Run(ss, actions) && m < |actions| && actions[m] == Notify(e, key, kind) && kind.Updating?
    ensures key in ss[m].store && ss[m + 1].cloud == ss[m].cloud
    ensures Queued(ss[m + 1], e, ss[m].store[key]) && ss[m + 1].events[e].kind == kind
  {
    assert Step(ss[m], actions[m], ss[m + 1]);
  }

  lemma ResyncReaches(ss: seq<State>, actions: seq<Action>, i: nat, e: nat, o: Object)
    requires Run(ss, actions) && i < |actions| && Inv(ss[0]) && Queued(ss[i], e, o)
    requires IsResync(ss[i].events[e].kind, o) && o.status.id in ss[i].cloud.live
    requires actions[i].Attempt? && actions[i].e == e && actions[i].r.Ok?
    ensures actions[i].seen.Some? && o.status.id in ss[i + 1].cloud.live
    ensures ss[i + 1].cloud.live[o.status.id].flavor == o.spec.flavorref
    ensures ss[i + 1].cloud.live[o.status.id].volume == Max(ss[i].cloud.live[o.status.id].volume, o.spec.volumesize)
  {
    RunInv(ss, actions, i);
    ResyncSucceeds(ss[i], actions[i], ss[i + 1], e, o);
    CompletedScalingReaches(ss[i], actions[i], ss[i + 1], e, o);
  }

  lemma {:induction false} RetriesKeepEvent(
    ss: seq<State>, actions: seq<Action>, m: nat, n: nat, e: nat, o: Object)
    requires Run(ss, actions) && m <= n <= |actions| && e in ss[m].events
    requires forall i | m <= i < n :: RetryOrAside(ss[i], actions[i], ss[i + 1], e, o)
    ensures forall i | m <= i <= n :: e in ss[i].events
  {
    if m < n {
      RetriesKeepEvent(ss, actions, m, n - 1, e, o);
      assert Step(ss[n - 1], actions[n - 1], ss[n]);
    }
  }

  /** Where nothing else moves the volume meanwhile, it ends as the larger of the size it had when the
      resync came and the stored one. */
  lemma ResyncRepairsExactly(ss: seq<State>, actions: seq<Action>, m: nat, n: nat, e: nat, key: Key, kind: Kind)
    requires Run(ss, actions) && Inv(ss[0]) && m < n < |actions|
    requires actions[m] == Notify(e, key, kind) && key in ss[m].store && IsResync(kind, ss[m].store[key])
    requires Owns(ss[m].cloud, ss[m].store[key])
    requires forall i | m + 1 <= i < n :: RetryOrAside(ss[i], actions[i], ss[i + 1], e, ss[m].store[key])
    requires actions[n].Attempt? && actions[n].e == e && actions[n].r.Ok?
    ensures var o := ss[m].store[key];
            && o.status.id in ss[n + 1].cloud.live
            && ss[n + 1].cloud.live[o.status.id].volume == Max(ss[m].cloud.live[o.status.id].volume, o.spec.volumesize)
  {
    var o := ss[m].store[key];
    NotifiedQueued(ss, actions, m, e, key, kind);
    RunStaysBetween(ss, actions, m + 1, n, e, o);
    RetriesKeepEvent(ss, actions, m + 1, n, e, o);
    ResyncRepairs(ss, actions, m, n, e, key, kind);
  }

  // ----- edits

  /** The instance has the flavour asked for, and at least the size. */
  predicate InEffect(c: Cloud, o: Object) {
    && o.status.id in c.live
    && c.live[o.status.id].flavor == o.spec.flavorref && o.spec.volumesize <= c.live[o.status.id].volume
  }

  /** Which updates are acted on: a successful attempt has looked at the instance if and only if the refreshed
      status is that of the replaced object, or the specification is, lists included. */
  lemma ActedOn(s: State, a: Action, s': State)
    requires Step(s, a, s') && a.Attempt? && s.events[a.e].kind.Updating? && a.r.Ok?
    ensures var ch := s.events[a.e].kind.change;
            a.seen.Some? <==> ch.was.status == a.p.status || (ch.was.spec == a.p.spec && ch.sameLists)
  {
  }

  /** In every run: an edit whose refresh leaves the status that the replaced object had is in effect after a
      successful attempt, with its flavour and the larger of the two sizes. */
  lemma EditActedOn(ss: seq<State>, actions: seq<Action>, n: nat, e: nat)
    requires Run(ss, actions) && Inv(ss[0]) && n < |actions| && e in ss[n].events && ss[n].events[e].kind.Updating?
    requires actions[n].Attempt? && actions[n].e == e && actions[n].r.Ok?
    requires ss[n].events[e].kind.change.was.status == actions[n].p.status
    requires ss[n].events[e].obj.status.id in ss[n].cloud.live
    ensures var o := ss[n].events[e].obj;
            && o.status.id in ss[n + 1].cloud.live
            && ss[n + 1].cloud.live[o.status.id].flavor == o.spec.flavorref
            && ss[n + 1].cloud.live[o.status.id].volume == Max(ss[n].cloud.live[o.status.id].volume, o.spec.volumesize)
  {
    RunInv(ss, actions, n);
    ActedOn(ss[n], actions[n], ss[n + 1]);
    SuccessReaches(ss[n], actions[n], ss[n + 1]);
  }

  lemma SuccessReaches(s: State, a: Action, s': State)
    requires Inv(s) && Step(s, a, s') && a.Attempt? && s.events[a.e].kind.Updating? && a.r.Ok? && a.seen.Some?
    requires s.events[a.e].obj.status.id in s.cloud.live
    ensures var o := s.events[a.e].obj;
            && o.status.id in s'.cloud.live
            && s'.cloud.live[o.status.id].flavor == o.spec.flavorref
            && s'.cloud.live[o.status.id].volume == Max(s.cloud.live[o.status.id].volume, o.spec.volumesize)
  {
    var o, ch := s.events[a.e].obj, s.events[a.e].kind.change;
    DoneIsScaled(o, a.seen.value, ch.at, ch.sql, a.es);
    CompletedScalingReaches(s, a, s', a.e, o);
  }

  /** In every run: the instance that an add event brings about is what the object asks for, so that an
      update with the same specification, which finds it, asks for no enlargement and no resize. */
  lemma CreatedAsAsked(ss: seq<State>, actions: seq<Action>, n: nat, e: nat, at: Option<int>, sql: bool)
    requires Run(ss, actions) && n < |actions| && e in ss[n].events && ss[n].events[e].kind.Adding?
    requires actions[n].Attempt? && actions[n].e == e && actions[n].made != ""
    ensures var o, made, c := ss[n].events[e].obj, actions[n].made, ss[n + 1].cloud;
            && made !in ss[n].cloud.names && made in c.live
            && c.live[made].name == o.namespace + "_" + o.name
            && c.live[made].volume == o.spec.volumesize && c.live[made].flavor == o.spec.flavorref
            && (c.live[made].ha <==> o.spec.hamode == "Ha")
            && forall i | 0 <= i < |UpdatePlan(WithId(o, made), c.live[made], at, sql)| ::
                 !Scales(UpdatePlan(WithId(o, made), c.live[made], at, sql)[i])
  {
    assert Step(ss[n], actions[n], ss[n + 1]);
    var o, made := ss[n].events[e].obj, actions[n].made;
    ScalesOnlyWhenShort(WithId(o, made), ss[n + 1].cloud.live[made], at, sql);
  }

  /** A successful attempt looked at the instance if and only if it was not skipped; and after it the
      specification is in effect if and only if it was not skipped, or was in effect already. */
  lemma EditTakesEffect(s: State, a: Action, s': State)
    requires Inv(s) && Step(s, a, s') && a.Attempt? && s.events[a.e].kind.Updating? && a.r.Ok?
    requires Owns(s.cloud, s.events[a.e].obj)
    ensures var o, ch := s.events[a.e].obj, s.events[a.e].kind.change;
            && (a.seen.None? <==> ch.Skips(a.p))
            && (ch.Skips(a.p) ==> s'.cloud == s.cloud)
            && (InEffect(s'.cloud, o) <==> !ch.Skips(a.p) || InEffect(s.cloud, o))
  {
    var o, ch := s.events[a.e].obj, s.events[a.e].kind.change;
    if a.seen.Some? {
      SuccessReaches(s, a, s');
    }
  }

  /** Where the refresh leaves specification and status both different, an attempt can succeed without a
      look at the instance: `p` is the object as refreshed from listing `l`, and stored. */
  lemma EditSkipped(s: State, e: nat, l: Listed, p: Object) returns (a: Action, s': State)
    requires e in s.events && s.events[e].kind.Updating? && SeenIn(s.cloud, NameOf(s.events[e].obj), l.inst)
    requires TakesOver(s.events[e].obj, p, Entry(Save(TriggersOf(p)), true, Some(l), Some(p)))
    requires var ch := s.events[e].kind.change;
             ch.was.status != p.status && !(ch.was.spec == p.spec && ch.sameLists)
    ensures Step(s, a, s') && a.Attempt? && a.e == e && a.p == p && a.r.Ok? && s'.cloud == s.cloud
  {
    var key := KeyOf(p);
    var store := if key in s.store then s.store[key := p] else s.store;
    a := Attempt(e, p, None, "", [Entry(Save(TriggersOf(p)), true, Some(l), Some(p))], Ok);
    s' := s.(store := store, events := s.events[e := s.events[e].(obj := p)]);
    assert OneSave(a.es, s.events[e].obj);
  }

  /** So it is with an edit of the specification alone, if the state has moved on by the time of the
      refresh: the event succeeds, and the instance stays without the edit. */
  lemma EditAloneSkipped(s: State, e: nat, seen: Instance, status: string) returns (a: Action, s': State)
    requires e in s.events && s.events[e].kind.Updating? && SeenIn(s.cloud, NameOf(s.events[e].obj), seen)
    requires var o, was := s.events[e].obj, s.events[e].kind.change.was;
             && was.status == o.status && was.spec != o.spec
             && status != "" && status != o.status.status && !InEffect(s.cloud, o)
    ensures Step(s, a, s') && a.Attempt? && a.e == e && a.r.Ok? && !InEffect(s'.cloud, s.events[e].obj)
  {
    var o := s.events[e].obj;
    var l := Listed(o.status.id, seen, status, [o.status.ip], []);
    a, s' := EditSkipped(s, e, l, o.(status := o.status.(status := status)));
  }

  /** The action stores no other size or flavour under the key, and does not remove it. */
  predicate Spares(s: State, a: Action, key: Key, spec: Spec) {
    match a
    case Write(o) => KeyOf(o) == key ==> SameScale(o.spec, spec)
    case Raise(k, o) => k == key ==> SameScale(o.spec, spec)
    case Remove(k, _) => k != key
    case Attempt(e, _, _, _, _, _) =>
      e in s.events && KeyOf(s.events[e].obj) == key ==> SameScale(s.events[e].obj.spec, spec)
    case _ => true
  }

  predicate SameScale(a: Spec, b: Spec) {
    a.volumesize == b.volumesize && a.flavorref == b.flavorref
  }

  lemma SparedStep(s: State, a: Action, s': State, key: Key, spec: Spec)
    requires Step(s, a, s') && Spares(s, a, key, spec)
    requires key in s.store && SameScale(s.store[key].spec, spec)
    ensures key in s'.store && SameScale(s'.store[key].spec, spec)
  {
  }

  lemma {:induction false} EditStays(ss: seq<State>, actions: seq<Action>, m: nat, n: nat, key: Key, spec: Spec)
    requires Run(ss, actions) && m <= n <= |actions|
    requires key in ss[m].store && SameScale(ss[m].store[key].spec, spec)
    requires forall i | m <= i < n :: Spares(ss[i], actions[i], key, spec)
    ensures key in ss[n].store && SameScale(ss[n].store[key].spec, spec)
    decreases n - m
  {
    if m < n {
      SparedStep(ss[m], actions[m], ss[m + 1], key, spec);
      EditStays(ss, actions, m + 1, n, key, spec);
    }
  }

  /** No edit is lost: whatever became of the event that announced it, skipped, dropped, broken off or
      still being retried, the next resync that succeeds brings the edit into effect, unless another size
      or flavour has been stored between the edit and the resync. */
  lemma EditRecovered(
    ss: seq<State>, actions: seq<Action>, w: nat, m: nat, n: nat, e: nat, edit: Object, kind: Kind)
    requires Run(ss, actions) && Inv(ss[0]) && w < m < n < |actions|
    requires actions[w] == Write(edit)
    requires forall i | w < i < m :: Spares(ss[i], actions[i], KeyOf(edit), edit.spec)
    requires var key := KeyOf(edit);
             actions[m] == Notify(e, key, kind) && key in ss[m].store && IsResync(kind, ss[m].store[key])
    requires forall i | m < i <= n :: e in ss[i].events
    requires actions[n].Attempt? && actions[n].e == e && actions[n].r.Ok?
    requires ss[m].store[KeyOf(edit)].status.id in ss[n].cloud.live
    ensures var id := ss[m].store[KeyOf(edit)].status.id;
            && id in ss[n + 1].cloud.live
            && ss[n + 1].cloud.live[id].flavor == edit.spec.flavorref
            && ss[n + 1].cloud.live[id].volume == Max(ss[n].cloud.live[id].volume, edit.spec.volumesize)
  {
    WrittenStays(ss, actions, w, m, edit);
    ResyncRepairs(ss, actions, m, n, e, KeyOf(edit), kind);
  }

  lemma WrittenStays(ss: seq<State>, actions: seq<Action>, w: nat, m: nat, edit: Object)
    requires Run(ss, actions) && w < m <= |actions| && actions[w] == Write(edit)
    requires forall i | w < i < m :: Spares(ss[i], actions[i], KeyOf(edit), edit.spec)
    ensures KeyOf(edit) in ss[m].store && SameScale(ss[m].store[KeyOf(edit)].spec, edit.spec)
  {
    assert Step(ss[w], actions[w], ss[w + 1]);
    EditStays(ss, actions, w + 1, m, KeyOf(edit), edit.spec);
  }
}
