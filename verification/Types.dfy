/** The managed object: its specification, its status, and the pointers its copies share. */
module Types {

  datatype Spec = Spec(
    availabilityzone: string, backuprestoretime: string, backupstarttime: string, backupkeepdays: int,
    datastoretype: string, datastoreversion: string, endpoint: string, flavorref: string, hamode: string,
    hareplicationmode: string, port: string, password: string, region: string, subnet: string,
    securitygroup: string, volumetype: string, volumesize: int, vpc: string)

  datatype Status = Status(autopilot: bool, id: string, ip: string, logs: bool, reboot: bool, status: string)

  datatype User = User(name: string, host: string, password: string, privileges: seq<string>)

  /** What the Kubernetes store keeps of an object. */
  datatype Object = Object(namespace: string, name: string, spec: Spec, status: Status)

  /** The refresh from the cloud may have changed the address and the state, nothing else. */
  predicate Refreshed(before: Status, after: Status) {
    after == before.(ip := after.ip, status := after.status)
  }

  /** The target of `Spec.Users`, a pointer in the source. */
  class UserList {
    var items: seq<User>

    constructor (items: seq<User>)
      ensures this.items == items
    {
      this.items := items;
    }
  }

  /** `Spec.Databases` and `Spec.Users` are kept apart from the scalar part of the specification,
      because assigning a specification copies the scalars and shares these two. */
  class Rds {
    var namespace: string
    var name: string
    var spec: Spec
    var databases: array?<string>
    var users: UserList?
    var status: Status

    constructor (
      namespace: string, name: string, spec: Spec, databases: array?<string>, users: UserList?, status: Status)
      ensures this.namespace == namespace && this.name == name && this.spec == spec && this.status == status
      ensures this.databases == databases && this.users == users
    {
      this.namespace, this.name := namespace, name;
      this.spec, this.status := spec, status;
      this.databases, this.users := databases, users;
    }

    function Value(): Object
      reads this
    {
      Object(namespace, name, spec, status)
    }

    /** `reflect.DeepEqual` on the two lists; it tells a nil slice from an empty one. */
    predicate SameLists(other: Rds)
      reads this, other, databases, other.databases, users, other.users
    {
      && (if databases == null || other.databases == null then databases == other.databases
          else databases[..] == other.databases[..])
      && (if users == null || other.users == null then users == other.users
          else users.items == other.users.items)
    }

    /** `reflect.DeepEqual` on specifications. */
    predicate SameSpec(other: Rds)
      reads this, other, databases, other.databases, users, other.users
    {
      spec == other.spec && SameLists(other)
    }

    /** As in the source: true when the specifications are equal or the states are. */
    predicate HasChanged(other: Rds)
      reads this, other, databases, other.databases, users, other.users
    {
      SameSpec(other) || status == other.status
    }

    /** Writes every field of `out`; what the slice and the pointer refer to is shared. */
    method DeepCopyInto(out: Rds)
      modifies out
      ensures out.Value() == old(Value()) && out.databases == old(databases) && out.users == old(users)
    {
      out.namespace, out.name := namespace, name;
      out.spec, out.status := spec, status;
      out.databases, out.users := databases, users;
    }

    method DeepCopy() returns (out: Rds)
      ensures fresh(out) && out.Value() == Value()
      ensures out.databases == databases && out.users == users
      ensures SameSpec(out)
    {
      out := new Rds("", "", spec, null, null, status);
      DeepCopyInto(out);
    }
  }
}
