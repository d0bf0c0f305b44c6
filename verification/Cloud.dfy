/** The cloud and the Kubernetes store as the controller sees them. Any call may fail, with or
    without having taken effect. */
module Cloud {
  import opened Common
  import opened Types

  datatype Instance = Instance(name: string, volume: int, flavor: string, ha: bool)

  datatype Job =
    | Enlargement(id: string, size: int)
    | Resizing(id: string, flavor: string)
    | Restart(id: string)
    | Restore(id: string, at: int)
    | Deletion(id: string)
    | Creation(id: string)

  /** The live instances, the name under which each id was ever issued, and which ids have a
      completed backup made by the controller. */
  datatype Cloud = Cloud(live: map<string, Instance>, names: map<string, string>, backups: set<string>)

  /** What a job does once it runs; running it twice is running it once. */
  function Effect(c: Cloud, job: Job): Cloud {
    if job.id !in c.live then c else
      match job
      case Enlargement(id, size) => c.(live := c.live[id := c.live[id].(volume := size)])
      case Resizing(id, flavor) => c.(live := c.live[id := c.live[id].(flavor := flavor)])
      case Deletion(id) => c.(live := c.live - {id})
      case _ => c
  }

  function Launched(c: Cloud, id: string, inst: Instance): Cloud {
    c.(live := c.live[id := inst], names := c.names[id := inst.name])
  }

  /** The parts of an object that start something when set. */
  datatype Triggers = Triggers(reboot: bool, restore: string, logs: bool, autopilot: bool)

  /** The calls that change something or wait for a change; reads are not recorded. A save is a call
      of `UpdateStatus`: a refresh from the cloud and, if that lists the instance, a write. */
  datatype Call =
    | Submit(job: Job)
    | Await(job: Job)
    | Save(triggers: Triggers)
    | FetchLogs
    | ProvisionSql
    | CreateAlarms
    | DeleteAlarms
    | Backup(id: string)
    | AwaitBackup(id: string)
    | Launch(name: string)

  /** A call and whether it went well; of a save also what its refresh listed of the instance, and the
      object that was then sent to be stored. */
  datatype Entry = Entry(call: Call, ok: bool, listed: Option<Listed>, sent: Option<Object>)

  function Plain(call: Call, ok: bool): Entry {
    Entry(call, ok, None, None)
  }

  /** The jobs whose wait was answered without an error. */
  function Finished(es: seq<Entry>): set<Job> {
    set e | e in es && e.call.Await? && e.ok :: e.call.job
  }

  /** One entry of an instance listing. State, addresses and nodes are the cloud's affair and may
      read differently every time. */
  datatype Listed =
    Listed(id: string, inst: Instance, status: string, privateIps: seq<string>, nodes: seq<string>)

  type Key = (string, string)

  class Backend {
    var cloud: Cloud
    var store: map<Key, Object>
    var trace: seq<Entry>
    /** What the save in progress has read and sent. */
    var listed: Option<Listed>
    var sent: Option<Object>
    /** The objects that the alarm receiver has sent to be stored. */
    var raised: seq<Object>
    /** How many answers so far were errors, and how many showed an instance by id without a node. */
    var errors: nat
    var nodeless: nat

    ghost predicate Lists(id: string, l: Listed)
      reads this
    {
      l.id == id && id in cloud.live && l.inst == cloud.live[id]
    }

    /** A step that changes nothing here and may fail: a client, a lookup, the decoding of an answer. */
    method Answer() returns (ok: bool)
      modifies this`errors
      ensures errors == old(errors) + if ok then 0 else 1
    {
      ok := *;
      errors := errors + if ok then 0 else 1;
    }

    method Describe(id: string) returns (l: Listed)
      requires id in cloud.live
      ensures Lists(id, l)
    {
      var status: string := *;
      var ips: seq<string> := *;
      var nodes: seq<string> := *;
      l := Listed(id, cloud.live[id], status, ips, nodes);
    }

    /** A listing by exact name, of which the first entry is used. */
    method Find(name: string) returns (ok: bool, found: Option<Listed>)
      modifies this`errors, this`listed
      ensures errors == old(errors) + if ok then 0 else 1
      ensures listed == found
      ensures found.Some? ==> ok && Lists(found.value.id, found.value) && found.value.inst.name == name
      ensures ok && found.None? ==> forall id | id in cloud.live :: cloud.live[id].name != name
    {
      ok := Answer();
      found := None;
      var ids := set id | id in cloud.live && cloud.live[id].name == name;
      if ok && ids != {} {
        var id :| id in ids;
        var l := Describe(id);
        found := Some(l);
      } else {
        assert forall id | id in cloud.live && cloud.live[id].name == name :: id in ids;
      }
      listed := found;
    }

    method Get(id: string) returns (ok: bool, found: Option<Listed>)
      modifies this`errors, this`nodeless
      ensures errors == old(errors) + if ok then 0 else 1
      ensures nodeless == old(nodeless) + if found.Some? && found.value.nodes == [] then 1 else 0
      ensures found.Some? ==> ok && Lists(id, found.value)
      ensures ok && found.None? ==> id !in cloud.live
    {
      ok := Answer();
      found := None;
      if ok && id in cloud.live {
        var l := Describe(id);
        found := Some(l);
        nodeless := nodeless + if l.nodes == [] then 1 else 0;
      }
    }

    /** Records a call that consists of others, whose errors have been counted. */
    method Record(call: Call, ok: bool)
      modifies this`trace
      ensures trace == old(trace) + [if call.Save? then Entry(call, ok, listed, sent) else Plain(call, ok)]
    {
      trace := trace + [if call.Save? then Entry(call, ok, listed, sent) else Plain(call, ok)];
    }

    method RecordAnswer(call: Call, ok: bool)
      requires !call.Save?
      modifies this`trace, this`errors
      ensures trace == old(trace) + [Plain(call, ok)] && errors == old(errors) + if ok then 0 else 1
    {
      Record(call, ok);
      errors := errors + if ok then 0 else 1;
    }

    method BeginSave()
      modifies this`listed, this`sent
      ensures listed == None && sent == None
    {
      listed, sent := None, None;
    }

    /** Asks for a job. It may have run although the answer is an error, and may not yet have run
        although the answer is fine. */
    method SubmitJob(job: Job) returns (ok: bool)
      modifies this`cloud, this`trace, this`errors
      ensures trace == old(trace) + [Plain(Submit(job), ok)] && errors == old(errors) + if ok then 0 else 1
      ensures cloud == old(cloud) || cloud == Effect(old(cloud), job)
      ensures ok ==> job.id in old(cloud).live
    {
      ok := *;
      ok := ok && job.id in cloud.live;
      RecordAnswer(Submit(job), ok);
      if * {
        cloud := Effect(cloud, job);
      }
    }

    /** Waits for a job; only a good answer means that it has run. */
    method AwaitJob(job: Job) returns (ok: bool)
      modifies this`cloud, this`trace, this`errors
      ensures trace == old(trace) + [Plain(Await(job), ok)] && errors == old(errors) + if ok then 0 else 1
      ensures cloud == old(cloud) || cloud == Effect(old(cloud), job)
      ensures ok ==> cloud == Effect(old(cloud), job)
    {
      ok := *;
      RecordAnswer(Await(job), ok);
      var ran: bool := *;
      if ok || ran {
        cloud := Effect(cloud, job);
      }
    }

    /** `made` is the id of the new instance, empty when none came about; the caller may not learn of it. */
    method LaunchInstance(inst: Instance) returns (ok: bool, id: string, status: string, ghost made: string)
      modifies this`cloud, this`trace, this`errors
      ensures trace == old(trace) + [Plain(Launch(inst.name), ok)] && errors == old(errors) + if ok then 0 else 1
      ensures made == "" ==> cloud == old(cloud)
      ensures made != "" ==> made !in old(cloud).names && cloud == Launched(old(cloud), made, inst)
      ensures ok ==> id == made != ""
    {
      ok, id, status, made := false, *, *, "";
      if id != "" && id !in cloud.names {
        if * {
          ok, made := *, id;
          cloud := Launched(cloud, id, inst);
        }
      }
      RecordAnswer(Launch(inst.name), ok);
    }

    method CreateBackup(id: string) returns (ok: bool)
      modifies this`trace, this`errors
      ensures trace == old(trace) + [Plain(Backup(id), ok)] && errors == old(errors) + if ok then 0 else 1
    {
      ok := *;
      RecordAnswer(Backup(id), ok);
    }

    method WaitForBackup(id: string) returns (ok: bool)
      modifies this`cloud, this`trace, this`errors
      ensures trace == old(trace) + [Plain(AwaitBackup(id), ok)] && errors == old(errors) + if ok then 0 else 1
      ensures cloud == old(cloud) || cloud == old(cloud).(backups := old(cloud).backups + {id})
      ensures ok ==> id in cloud.backups
    {
      ok := *;
      RecordAnswer(AwaitBackup(id), ok);
      var completed: bool := *;
      if ok || completed {
        cloud := cloud.(backups := cloud.backups + {id});
      }
    }

    /** An update of an existing object; it may be refused, and it may be applied without an answer. */
    method UpdateObject(o: Object) returns (ok: bool)
      modifies this`store, this`errors
      ensures errors == old(errors) + if ok then 0 else 1
      ensures store == old(store) ||
              ((o.namespace, o.name) in old(store) && store == old(store)[(o.namespace, o.name) := o])
      ensures ok ==> (o.namespace, o.name) in old(store) && store == old(store)[(o.namespace, o.name) := o]
    {
      ok := *;
      ok := ok && (o.namespace, o.name) in store;
      errors := errors + if ok then 0 else 1;
      var applied: bool := *;
      if ok || (applied && (o.namespace, o.name) in store) {
        store := store[(o.namespace, o.name) := o];
      }
    }

    /** The update within a save. */
    method SaveObject(o: Object) returns (ok: bool)
      modifies this`store, this`errors, this`sent
      ensures sent == Some(o) && errors == old(errors) + if ok then 0 else 1
      ensures store == old(store) ||
              ((o.namespace, o.name) in old(store) && store == old(store)[(o.namespace, o.name) := o])
      ensures ok ==> (o.namespace, o.name) in old(store) && store == old(store)[(o.namespace, o.name) := o]
    {
      sent := Some(o);
      ok := UpdateObject(o);
    }

    /** The update by the alarm receiver. */
    method RaiseObject(o: Object) returns (ok: bool)
      modifies this`store, this`errors, this`raised
      ensures raised == old(raised) + [o] && errors == old(errors) + if ok then 0 else 1
      ensures store == old(store) ||
              ((o.namespace, o.name) in old(store) && store == old(store)[(o.namespace, o.name) := o])
      ensures ok ==> (o.namespace, o.name) in old(store) && store == old(store)[(o.namespace, o.name) := o]
    {
      raised := raised + [o];
      ok := UpdateObject(o);
    }

    method GetObject(namespace: string, name: string) returns (found: Option<Object>)
      modifies this`errors
      ensures found.Some? ==> (namespace, name) in store && found.value == store[(namespace, name)]
      ensures found.Some? ==> errors == old(errors)
      ensures found.None? ==> errors == old(errors) + 1 || (errors == old(errors) && (namespace, name) !in store)
    {
      var ok := Answer();
      found := None;
      if ok && (namespace, name) in store {
        found := Some(store[(namespace, name)]);
      }
    }
  }
}
