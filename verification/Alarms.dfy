/** The three alarm rules of an object, their topic and their subscription. */
module Alarms {
  import opened Common
  import opened Strings
  import opened Names

  const DISC := "-disc-util"
  const CPU := "-cpu-util"
  const MEM := "-mem-util"

  /** An alarm rule: the metric of an instance that it watches, and the topic that it notifies. */
  datatype Rule = Rule(name: string, metric: string, instance: string, urn: string)

  datatype Alarm = Alarm(id: string, name: string)

  datatype Topic = Topic(urn: string, name: string)

  predicate Plain(namespace: string, name: string) {
    '_' !in namespace && '_' !in name
  }

  function AlarmName(namespace: string, name: string, suffix: string): string {
    Encode(namespace, name) + suffix
  }

  lemma AlarmNameIs(namespace: string, name: string, suffix: string)
    ensures AlarmName(namespace, name, suffix) == Encode(namespace, name + suffix)
  {
    assert namespace + "_" + name + suffix == namespace + "_" + (name + suffix);
  }

  function Without(alarms: map<string, Rule>, needle: string): map<string, Rule> {
    map i | i in alarms && !Contains(alarms[i].name, needle) :: alarms[i]
  }

  datatype Data = Data(
    alarms: map<string, Rule>, topics: map<string, string>, subscriptions: seq<(string, string)>, errors: nat)

  /** The alarm service and the notification service. Every call may fail. */
  class AlarmService {
    var alarms: map<string, Rule>
    var topics: map<string, string>
    var subscriptions: seq<(string, string)>
    /** How many answers so far were errors. */
    var errors: nat

    function Now(): Data
      reads this
    {
      Data(alarms, topics, subscriptions, errors)
    }

    method Answer() returns (ok: bool)
      modifies this`errors
      ensures errors == old(errors) + if ok then 0 else 1
    {
      ok := *;
      errors := errors + if ok then 0 else 1;
    }

    ghost predicate Listing(list: seq<Alarm>)
      reads this
    {
      && (forall a | a in list :: a.id in alarms && alarms[a.id].name == a.name)
      && (forall i | i in alarms :: Alarm(i, alarms[i].name) in list)
    }

    method ListAlarms() returns (ok: bool, list: seq<Alarm>)
      modifies this`errors
      ensures errors == old(errors) + if ok then 0 else 1
      ensures ok ==> Listing(list)
    {
      ok := Answer();
      list := [];
      var rest := alarms.Keys;
      while rest != {}
        invariant rest <= alarms.Keys
        invariant forall a | a in list :: a.id in alarms && alarms[a.id].name == a.name
        invariant forall i | i in alarms && i !in rest :: Alarm(i, alarms[i].name) in list
      {
        var i :| i in rest;
        rest, list := rest - {i}, list + [Alarm(i, alarms[i].name)];
      }
    }

    /** Creates under an id that is not in use. */
    method CreateRule(rule: Rule) returns (ok: bool)
      modifies this`alarms, this`errors
      ensures errors == old(errors) + if ok then 0 else 1
      ensures MayAdd(old(alarms), alarms, rule)
      ensures ok ==> rule in alarms.Values
    {
      ok := Answer();
      var done: bool := *;
      if ok || done {
        var i := FreshId(alarms);
        alarms := alarms[i := rule];
        assert i in alarms && alarms[i] == rule;
      }
    }

    method DeleteRule(id: string) returns (ok: bool)
      modifies this`alarms, this`errors
      ensures errors == old(errors) + if ok then 0 else 1
      ensures alarms == old(alarms) || alarms == old(alarms) - {id}
      ensures ok ==> alarms == old(alarms) - {id}
    {
      ok := Answer();
      var done: bool := *;
      if ok || done {
        alarms := alarms - {id};
      }
    }

    method ListTopics() returns (ok: bool, list: map<string, string>)
      modifies this`errors
      ensures errors == old(errors) + if ok then 0 else 1
      ensures list == topics
    {
      ok := Answer();
      list := topics;
    }

    /** A topic of that name, new or there already. Without an answer its URN is unknown. */
    method CreateTopic(name: string) returns (ok: bool, urn: string)
      modifies this`topics, this`errors
      ensures errors == old(errors) + if ok then 0 else 1
      ensures topics == old(topics) || exists u | u !in old(topics) :: topics == old(topics)[u := name]
      ensures ok ==> urn in topics && topics[urn] == name
    {
      urn := *;
      var usable := urn !in topics || topics[urn] == name;
      ok := *;
      ok := ok && usable;
      errors := errors + if ok then 0 else 1;
      var done: bool := *;
      if ok || (done && usable) {
        topics := topics[urn := name];
      }
    }

    method DeleteTopic(urn: string)
      modifies this`topics, this`errors
      ensures errors == old(errors) || errors == old(errors) + 1
      ensures topics == old(topics) || topics == old(topics) - {urn}
      ensures errors == old(errors) ==> topics == old(topics) - {urn}
    {
      var ok := Answer();
      var done: bool := *;
      if ok || done {
        topics := topics - {urn};
      }
    }

    method Subscribe(endpoint: string, urn: string) returns (ok: bool)
      modifies this`subscriptions, this`errors
      ensures errors == old(errors) + if ok then 0 else 1
      ensures ok ==> subscriptions == old(subscriptions) + [(endpoint, urn)]
      ensures !ok ==> subscriptions == old(subscriptions)
    {
      ok := Answer();
      if ok {
        subscriptions := subscriptions + [(endpoint, urn)];
      }
    }
  }

  /** The service's choice of an id: any that is not in use. */
  method FreshId(alarms: map<string, Rule>) returns (id: string)
    ensures id !in alarms
  {
    id := "0";
    var rest := alarms.Keys;
    while rest != {}
      invariant rest <= alarms.Keys
      invariant forall x | x in alarms && x !in rest :: |x| < |id|
    {
      var x :| x in rest;
      rest := rest - {x};
      if |id| <= |x| {
        id := x + "0";
      }
    }
  }

  /** No two disc alarms of one object. */
  ghost predicate OneDiscAlarm(alarms: map<string, Rule>, namespace: string, name: string) {
    forall i, j | i in alarms && j in alarms &&
      alarms[i].name == alarms[j].name == AlarmName(namespace, name, DISC) :: i == j
  }

  function DiscRule(namespace: string, name: string, instance: string, urn: string): Rule {
    Rule(AlarmName(namespace, name, DISC), "rds039_disk_util", instance, urn)
  }

  function CpuRule(namespace: string, name: string, instance: string, urn: string): Rule {
    Rule(AlarmName(namespace, name, CPU), "rds001_cpu_util", instance, urn)
  }

  function MemRule(namespace: string, name: string, instance: string, urn: string): Rule {
    Rule(AlarmName(namespace, name, MEM), "rds002_mem_util", instance, urn)
  }

  /** `after` has at most one more alarm, that rule. */
  ghost predicate MayAdd(before: map<string, Rule>, after: map<string, Rule>, rule: Rule) {
    after == before || exists i | i !in before :: after == before[i := rule]
  }

  /** At most the three rules of the object are added. */
  ghost predicate AddsRules(before: map<string, Rule>, after: map<string, Rule>,
    namespace: string, name: string, instance: string, urn: string)
  {
    exists m1, m2 ::
      && MayAdd(before, m1, DiscRule(namespace, name, instance, urn))
      && MayAdd(m1, m2, CpuRule(namespace, name, instance, urn))
      && MayAdd(m2, after, MemRule(namespace, name, instance, urn))
  }

  lemma AddsNothing(m: map<string, Rule>, namespace: string, name: string, instance: string, urn: string)
    ensures AddsRules(m, m, namespace, name, instance, urn)
  {
    assert MayAdd(m, m, DiscRule(namespace, name, instance, urn));
    assert MayAdd(m, m, CpuRule(namespace, name, instance, urn));
    assert MayAdd(m, m, MemRule(namespace, name, instance, urn));
  }

  predicate HasRule(alarms: map<string, Rule>, namespace: string, name: string, suffix: string) {
    exists i | i in alarms :: alarms[i].name == AlarmName(namespace, name, suffix)
  }

  /** The webhook is reached: the topic `urn` has the name `namespace_name`, the endpoint is subscribed to
      it, and the three rules notify it, each of its metric of the instance. */
  ghost predicate Connected(d: Data, d': Data, namespace: string, name: string, endpoint: string, instance: string,
    urn: string)
  {
    && urn in d'.topics && d'.topics[urn] == namespace + "_" + name
    && d'.subscriptions == d.subscriptions + [(endpoint, urn)]
    && Rule(namespace + "_" + name + "-disc-util", "rds039_disk_util", instance, urn) in d'.alarms.Values
    && Rule(namespace + "_" + name + "-cpu-util", "rds001_cpu_util", instance, urn) in d'.alarms.Values
    && Rule(namespace + "_" + name + "-mem-util", "rds002_mem_util", instance, urn) in d'.alarms.Values
  }

  /** Topics and subscriptions stay, and at most the object's own is added. */
  predicate Announcing(d: Data, d': Data, namespace: string, name: string, endpoint: string) {
    && (forall u | u in d.topics :: u in d'.topics && d'.topics[u] == d.topics[u])
    && (forall u | u in d'.topics && u !in d.topics :: d'.topics[u] == namespace + "_" + name)
    && d.subscriptions <= d'.subscriptions && |d'.subscriptions| <= |d.subscriptions| + 1
    && (|d.subscriptions| < |d'.subscriptions| ==> d'.subscriptions[|d.subscriptions|].0 == endpoint)
  }

  /** What the creation of alarms does: at most the topic, the subscription and the three rules are added,
      all of them when no answer was an error, and no object comes to have two disc alarms. */
  ghost predicate Alarming(
    d: Data, d': Data, namespace: string, name: string, endpoint: string, instance: string, r: Outcome)
  {
    && d.errors <= d'.errors
    && Announcing(d, d', namespace, name, endpoint)
    && (exists urn :: AddsRules(d.alarms, d'.alarms, namespace, name, instance, urn))
    && (forall ns, n :: OneDiscAlarm(d.alarms, ns, n) ==> OneDiscAlarm(d'.alarms, ns, n))
    && (HasRule(d.alarms, namespace, name, DISC) ==> !r.Ok?)
    && (r.Ok? && d'.errors == d.errors ==>
          exists urn :: Connected(d, d', namespace, name, endpoint, instance, urn))
  }

  /** What an attempt does to the alarms: nothing unless they are asked for. */
  ghost predicate AlarmStep(
    d: Data, d': Data, namespace: string, name: string, endpoint: string, asked: bool, r: Outcome)
  {
    && (!asked ==> d' == d)
    && (d' == d || exists instance :: Alarming(d, d', namespace, name, endpoint, instance, Err))
    && (asked && r.Ok? ==> exists instance :: Alarming(d, d', namespace, name, endpoint, instance, Ok))
  }

  lemma AlarmingIsStep(
    d: Data, d': Data, namespace: string, name: string, endpoint: string, instance: string, r: Outcome)
    requires Alarming(d, d', namespace, name, endpoint, instance, r)
    ensures AlarmStep(d, d', namespace, name, endpoint, true, r)
  {
    assert Alarming(d, d', namespace, name, endpoint, instance, Err);
  }

  /** The guard looks at the disc alarm alone; failures to create are only logged. */
  method CreateAlarm(s: AlarmService, instanceId: string, endpoint: string, name: string, namespace: string)
    returns (r: Outcome)
    modifies s
    ensures Alarming(old(s.Now()), s.Now(), namespace, name, endpoint, instanceId, r)
    ensures r.Err? ==> s.alarms == old(s.alarms)
    ensures r.Err? ==> s.errors > old(s.errors) || HasRule(old(s.alarms), namespace, name, DISC)
    ensures !r.Panic?
  {
    var nsRds := Encode(namespace, name);
    ghost var m0 := s.alarms;
    AddsNothing(m0, namespace, name, instanceId, "");
    var announced, urn := Announce(s, endpoint, name, namespace);
    if !announced {
      return Err;
    }
    var ok, list := s.ListAlarms();
    if !ok {
      return Err;
    }
    for k := 0 to |list|
      invariant s.alarms == m0
      invariant forall a | a in list[..k] :: a.name != nsRds + DISC
    {
      if list[k].name == nsRds + DISC {
        return Err;
      }
    }
    assert list[..|list|] == list;
    forall i | i in m0
      ensures m0[i].name != nsRds + DISC
    {
      assert Alarm(i, m0[i].name) in list;
    }
    CreateRules(s, name, namespace, instanceId, urn);
    assert s.errors == old(s.errors) ==> Connected(old(s.Now()), s.Now(), namespace, name, endpoint, instanceId, urn);
    return Ok;
  }

  /** The topic and its subscription; that either cannot be created is only logged. */
  method Announce(s: AlarmService, endpoint: string, name: string, namespace: string)
    returns (announced: bool, urn: string)
    modifies s`topics, s`subscriptions, s`errors
    ensures Announcing(old(s.Now()), s.Now(), namespace, name, endpoint)
    ensures s.errors >= old(s.errors) && (!announced ==> s.errors > old(s.errors))
    ensures s.errors == old(s.errors) ==>
              && urn in s.topics && s.topics[urn] == namespace + "_" + name
              && s.subscriptions == old(s.subscriptions) + [(endpoint, urn)]
  {
    urn := "";
    var available := s.Answer();
    if !available {
      return false, urn;
    }
    var ok, topics := s.ListTopics();
    if !ok {
      return false, urn;
    }
    ok, urn := s.CreateTopic(Encode(namespace, name));
    var listed := s.Answer();  // the list of subscriptions
    if !listed {
      return false, urn;
    }
    ok := s.Subscribe(endpoint, urn);
    return true, urn;
  }

  /** The three rules, each created whatever became of the others. */
  method CreateRules(s: AlarmService, name: string, namespace: string, instanceId: string, urn: string)
    requires !HasRule(s.alarms, namespace, name, DISC)
    modifies s`alarms, s`errors
    ensures AddsRules(old(s.alarms), s.alarms, namespace, name, instanceId, urn)
    ensures s.errors >= old(s.errors)
    ensures s.errors == old(s.errors) ==>
              && DiscRule(namespace, name, instanceId, urn) in s.alarms.Values
              && CpuRule(namespace, name, instanceId, urn) in s.alarms.Values
              && MemRule(namespace, name, instanceId, urn) in s.alarms.Values
    ensures forall ns, n :: OneDiscAlarm(old(s.alarms), ns, n) ==> OneDiscAlarm(s.alarms, ns, n)
  {
    ghost var d, c, m := DiscRule(namespace, name, instanceId, urn), CpuRule(namespace, name, instanceId, urn),
      MemRule(namespace, name, instanceId, urn);
    ghost var m0 := s.alarms;
    var disc := s.CreateRule(Rule(AlarmName(namespace, name, DISC), "rds039_disk_util", instanceId, urn));
    ghost var m1 := s.alarms;
    var cpu := s.CreateRule(Rule(AlarmName(namespace, name, CPU), "rds001_cpu_util", instanceId, urn));
    ghost var m2 := s.alarms;
    StaysIn(m1, m2, c, d);
    var mem := s.CreateRule(Rule(AlarmName(namespace, name, MEM), "rds002_mem_util", instanceId, urn));
    StaysIn(m2, s.alarms, m, d);
    StaysIn(m2, s.alarms, m, c);
    KeepsOneDisc(m0, m1, m2, s.alarms, namespace, name, instanceId, urn);
  }

  lemma StaysIn(m: map<string, Rule>, m': map<string, Rule>, added: Rule, rule: Rule)
    requires MayAdd(m, m', added)
    ensures rule in m.Values ==> rule in m'.Values
  {
    if i :| i in m && m[i] == rule {
      assert i in m' && m'[i] == rule;
    }
  }

  /** A message through the topic of an object's alarms finds its way back to the object: a URN whose fifth
      field is the topic's name is decoded to namespace and name. */
  lemma AlarmsFindObject(d: Data, d': Data, namespace: string, name: string, endpoint: string, instance: string,
    urn: string, fields: seq<string>)
    requires Connected(d, d', namespace, name, endpoint, instance, urn) && Plain(namespace, name)
    requires |fields| >= 5 && urn == Join(fields, ':') && fields[4] == d'.topics[urn]
    requires forall i | 0 <= i < |fields| :: ':' !in fields[i]
    ensures Decode(urn) == Some((namespace, name))
  {
    DecodeEncode(fields, namespace, name);
  }

  lemma SuffixesDiffer(namespace: string, name: string, ns: string, n: string)
    ensures AlarmName(namespace, name, CPU) != AlarmName(ns, n, DISC)
    ensures AlarmName(namespace, name, MEM) != AlarmName(ns, n, DISC)
  {
    var c, m, d := AlarmName(namespace, name, CPU), AlarmName(namespace, name, MEM), AlarmName(ns, n, DISC);
    assert c[|c| - 7] == 'p' && d[|d| - 7] == 's' && m[|m| - 7] == 'e';
  }

  lemma KeepsOneDisc(m0: map<string, Rule>, m1: map<string, Rule>, m2: map<string, Rule>, m3: map<string, Rule>,
    namespace: string, name: string, instance: string, urn: string)
    requires forall i | i in m0 :: m0[i].name != AlarmName(namespace, name, DISC)
    requires MayAdd(m0, m1, DiscRule(namespace, name, instance, urn))
    requires MayAdd(m1, m2, CpuRule(namespace, name, instance, urn))
    requires MayAdd(m2, m3, MemRule(namespace, name, instance, urn))
    ensures forall ns, n :: OneDiscAlarm(m0, ns, n) ==> OneDiscAlarm(m3, ns, n)
  {
    forall ns, n | OneDiscAlarm(m0, ns, n)
      ensures OneDiscAlarm(m3, ns, n)
    {
      SuffixesDiffer(namespace, name, ns, n);
    }
  }

  /** Deletes every rule whose name contains the object's; the results of the deletions are not looked at. */
  method DeleteRules(s: AlarmService, nsRds: string) returns (r: Outcome)
    modifies s`alarms, s`errors
    ensures forall i | i in s.alarms :: i in old(s.alarms) && s.alarms[i] == old(s.alarms)[i]
    ensures forall i | i in old(s.alarms) && !Contains(old(s.alarms)[i].name, nsRds) :: i in s.alarms
    ensures s.errors >= old(s.errors)
    ensures s.errors == old(s.errors) ==> r.Ok? && s.alarms == Without(old(s.alarms), nsRds)
    ensures !r.Ok? ==> s.alarms == old(s.alarms)
  {
    ghost var before := s.alarms;
    var ok, list := s.ListAlarms();
    if !ok {
      return Panic;
    }
    for k := 0 to |list|
      invariant s.errors >= old(s.errors)
      invariant forall i | i in s.alarms :: i in before && s.alarms[i] == before[i]
      invariant forall i | i in before && !Contains(before[i].name, nsRds) :: i in s.alarms
      invariant s.errors == old(s.errors) ==> forall a | a in list[..k] && Contains(a.name, nsRds) :: a.id !in s.alarms
    {
      assert list[k] in list;
      if Contains(list[k].name, nsRds) {
        var gone := s.DeleteRule(list[k].id);
      }
    }
    assert list[..|list|] == list;
    forall i | s.errors == old(s.errors) && i in s.alarms
      ensures !Contains(before[i].name, nsRds)
    {
      assert Alarm(i, before[i].name) in list;
    }
    return Ok;
  }

  /** Topics go by their exact name. */
  method DeleteTopics(s: AlarmService, nsRds: string) returns (r: Outcome)
    modifies s`topics, s`errors
    ensures forall u | u in s.topics :: u in old(s.topics) && s.topics[u] == old(s.topics)[u]
    ensures forall u | u in old(s.topics) && old(s.topics)[u] != nsRds :: u in s.topics
    ensures s.errors >= old(s.errors) && !r.Panic?
    ensures s.errors == old(s.errors) ==> r.Ok? && forall u | u in s.topics :: s.topics[u] != nsRds
  {
    var ok, topics := s.ListTopics();
    if !ok {
      return Err;
    }
    var urns := topics.Keys;
    while urns != {}
      invariant urns <= topics.Keys && s.errors >= old(s.errors)
      invariant forall u | u in s.topics :: u in topics && s.topics[u] == topics[u]
      invariant forall u | u in topics && topics[u] != nsRds :: u in s.topics
      invariant s.errors == old(s.errors) ==>
                  forall u | u in topics && topics[u] == nsRds && u !in urns :: u !in s.topics
    {
      var u :| u in urns;
      urns := urns - {u};
      if topics[u] == nsRds {
        s.DeleteTopic(u);
      }
    }
    return Ok;
  }

  /** What the deletion of alarms does: only rules whose name contains the object's and topics of that
      name go, all of them when no answer was an error. */
  ghost predicate Purging(d: Data, d': Data, nsRds: string) {
    && d.errors <= d'.errors && d'.subscriptions == d.subscriptions
    && (forall i | i in d'.alarms :: i in d.alarms && d'.alarms[i] == d.alarms[i])
    && (forall i | i in d.alarms && !Contains(d.alarms[i].name, nsRds) :: i in d'.alarms)
    && (forall u | u in d'.topics :: u in d.topics && d'.topics[u] == d.topics[u])
    && (forall u | u in d.topics && d.topics[u] != nsRds :: u in d'.topics)
    && (d'.errors == d.errors ==>
          && (forall i | i in d'.alarms :: !Contains(d'.alarms[i].name, nsRds))
          && (forall u | u in d'.topics :: d'.topics[u] != nsRds))
  }

  method DeleteAlarm(s: AlarmService, name: string, namespace: string) returns (r: Outcome)
    modifies s
    ensures Purging(old(s.Now()), s.Now(), Encode(namespace, name))
    ensures !r.Ok? ==> s.errors > old(s.errors)
  {
    var available := s.Answer();
    if !available {
      return Err;
    }
    r := DeleteRules(s, Encode(namespace, name));
    if r.Ok? {
      r := DeleteTopics(s, Encode(namespace, name));
    }
  }

  /** An alarm of object (ns2, n2) goes with those of (ns1, n1) exactly when ns1 ends ns2 and n1
      begins n2 (followed by the alarm's suffix). */
  lemma DeletedTogether(ns1: string, n1: string, ns2: string, n2: string, suffix: string)
    requires Plain(ns1, n1) && Plain(ns2, n2) && '_' !in suffix
    ensures Contains(AlarmName(ns2, n2, suffix), Encode(ns1, n1)) <==> Shadows(ns1, n1, ns2, n2 + suffix)
  {
    AlarmNameIs(ns2, n2, suffix);
    ContainsEncoded(ns1, n1, ns2, n2 + suffix);
  }

  /** A complete deletion removes every alarm of its own object; one of another object survives
      exactly when that object does not stand in the relation. */
  lemma DeletionPrecise(
    alarms: map<string, Rule>, i: string, ns1: string, n1: string, ns2: string, n2: string, suffix: string)
    requires Plain(ns1, n1) && Plain(ns2, n2) && suffix in [DISC, CPU, MEM]
    requires i in alarms && alarms[i].name == AlarmName(ns2, n2, suffix)
    ensures i in Without(alarms, Encode(ns1, n1)) <==> !Shadows(ns1, n1, ns2, n2 + suffix)
    ensures ns1 == ns2 && n1 == n2 ==> i !in Without(alarms, Encode(ns1, n1))
  {
    DeletedTogether(ns1, n1, ns2, n2, suffix);
    assert n1 == n2 ==> (n2 + suffix)[..|n1|] == n1;
  }

  /** Deleting object `db` of namespace `prod` takes an alarm of `db2` in `preprod` along. */
  lemma ForeignAlarmDeleted(i: string, rule: Rule)
    requires rule.name == AlarmName("preprod", "db2", DISC)
    ensures i !in Without(map[i := rule], Encode("prod", "db"))
  {
    assert "preprod"[3..] == "prod" && "db" <= "db2" + DISC;
    DeletionPrecise(map[i := rule], i, "prod", "db", "preprod", "db2", DISC);
  }
}
