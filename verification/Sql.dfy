/** Provisioning of database users, grants and schemas by check-then-create loops. */
module Sql {
  import opened Common
  import opened Types

  predicate Alphanumeric(c: char) {
    'a' <= c <= 'z' || 'A' <= c <= 'Z' || '0' <= c <= '9'
  }

  predicate ValidGrant(s: string) {
    forall i | 0 <= i < |s| :: Alphanumeric(s[i]) || s[i] in " '*._%"
  }

  /** The pattern lets the empty name through. */
  predicate ValidSchema(s: string) {
    forall i | 0 <= i < |s| :: Alphanumeric(s[i])
  }

  /** Statements sent to the server; queries of what exists are not recorded. */
  datatype Statement = CreateUser(name: string, host: string) | Grant(text: string) | Flush | CreateSchema(name: string)

  type Accounts = set<(string, string)>

  predicate Named(have: Accounts, name: string) {
    exists u | u in have :: u.0 == name
  }

  // ----- the specification: a fold over the entries

  function UsersAfter(have: Accounts, entries: seq<User>): Accounts {
    if entries == [] then have else
      var n := |entries| - 1;
      var before := UsersAfter(have, entries[..n]);
      if Named(before, entries[n].name) then before else before + {(entries[n].name, entries[n].host)}
  }

  function Grants(privileges: seq<string>): seq<Statement> {
    if privileges == [] then [] else
      var n := |privileges| - 1;
      Grants(privileges[..n]) + if ValidGrant(privileges[n]) then [Grant(privileges[n]), Flush] else []
  }

  /** The statements of a run in which every user is created without an error. */
  function UserStatements(have: Accounts, entries: seq<User>): seq<Statement> {
    if entries == [] then [] else
      var n := |entries| - 1;
      var u := entries[n];
      UserStatements(have, entries[..n]) +
        if Named(UsersAfter(have, entries[..n]), u.name) then []
        else [CreateUser(u.name, u.host)] + Grants(u.privileges)
  }

  function Wanted(names: seq<string>): set<string> {
    set d | d in names && d != "" && ValidSchema(d)
  }

  function SchemasAfter(have: set<string>, names: seq<string>): set<string> {
    have + Wanted(names)
  }

  /** The statements of a run in which every schema with a name is created without an error. */
  function SchemaStatements(have: set<string>, names: seq<string>): seq<Statement> {
    if names == [] then [] else
      var n := |names| - 1;
      SchemaStatements(have, names[..n]) +
        if ValidSchema(names[n]) && names[n] !in SchemasAfter(have, names[..n]) then [CreateSchema(names[n])] else []
  }

  // ----- what the fold amounts to

  /** Entry `i` is the first to bring in its name. */
  predicate Introduces(have: Accounts, entries: seq<User>, i: int) {
    && 0 <= i < |entries|
    && (forall u | u in have :: u.0 != entries[i].name)
    && (forall j | 0 <= j < i :: entries[j].name != entries[i].name)
  }

  predicate LettersAndDigits(s: string, others: string) {
    forall c | c in s :: 'a' <= c <= 'z' || 'A' <= c <= 'Z' || '0' <= c <= '9' || c in others
  }

  lemma NextEntry(have: Accounts, entries: seq<User>, i: nat)
    requires i < |entries|
    ensures var u, before := entries[i], UsersAfter(have, entries[..i]);
            if Named(before, u.name) then
              && UsersAfter(have, entries[..i + 1]) == before
              && UserStatements(have, entries[..i + 1]) == UserStatements(have, entries[..i])
            else
              && UsersAfter(have, entries[..i + 1]) == before + {(u.name, u.host)}
              && UserStatements(have, entries[..i + 1])
                 == UserStatements(have, entries[..i]) + [CreateUser(u.name, u.host)] + Grants(u.privileges)
  {
    assert entries[..i + 1][..i] == entries[..i];
  }

  lemma {:induction false} NamedAfter(have: Accounts, entries: seq<User>, name: string)
    ensures Named(UsersAfter(have, entries), name) <==>
            Named(have, name) || exists i | 0 <= i < |entries| :: entries[i].name == name
  {
    if entries != [] {
      var n := |entries| - 1;
      NamedAfter(have, entries[..n], name);
      if entries[n].name == name {
        assert (name, entries[n].host).0 == name;
      }
      if i :| 0 <= i < n && entries[i].name == name {
        assert entries[..n][i].name == name;
      }
    }
  }

  /** An entry is dealt with if and only if it is the first to bring in its name. */
  lemma Dealt(have: Accounts, entries: seq<User>, n: nat)
    requires n < |entries|
    ensures Introduces(have, entries, n) <==> !Named(UsersAfter(have, entries[..n]), entries[n].name)
  {
    NamedAfter(have, entries[..n], entries[n].name);
    assert forall j | 0 <= j < n :: entries[..n][j] == entries[j];
  }

  lemma {:induction false} UsersAfterPrefix(have: Accounts, entries: seq<User>, n: nat, name: string, host: string)
    requires n <= |entries|
    ensures (name, host) in UsersAfter(have, entries[..n]) <==>
            || (name, host) in have
            || exists i | 0 <= i < n ::
                 Introduces(have, entries, i) && entries[i].name == name && entries[i].host == host
  {
    if n > 0 {
      UsersAfterPrefix(have, entries, n - 1, name, host);
      Dealt(have, entries, n - 1);
      assert entries[..n][..n - 1] == entries[..n - 1];
    }
  }

  /** The old accounts, and for each new name its first entry. */
  lemma UsersAfterIs(have: Accounts, entries: seq<User>, name: string, host: string)
    ensures (name, host) in UsersAfter(have, entries) <==>
            || (name, host) in have
            || exists i :: Introduces(have, entries, i) && entries[i].name == name && entries[i].host == host
  {
    UsersAfterPrefix(have, entries, |entries|, name, host);
    assert entries[..|entries|] == entries;
  }

  /** Each privilege of the permitted characters, in order and with a flush behind it. */
  lemma {:induction false} GrantsAre(privileges: seq<string>, text: string)
    ensures |Grants(privileges)| % 2 == 0
    ensures forall k | 0 <= k < |Grants(privileges)| ::
              if k % 2 == 0 then
                && Grants(privileges)[k].Grant? && Grants(privileges)[k].text in privileges
                && LettersAndDigits(Grants(privileges)[k].text, " '*._%")
              else Grants(privileges)[k] == Flush
    ensures text in privileges && LettersAndDigits(text, " '*._%") ==> Grant(text) in Grants(privileges)
  {
    if privileges != [] {
      var n := |privileges| - 1;
      GrantsAre(privileges[..n], text);
      assert privileges == privileges[..n] + [privileges[n]];
    }
  }

  /** Statement `k` is about the first entry of a new name: its creation, or a privilege of it after
      the creation and with a flush behind it. */
  ghost predicate Founded(have: Accounts, entries: seq<User>, log: seq<Statement>, k: int)
    requires 0 <= k < |log|
  {
    match log[k]
    case CreateUser(name, host) =>
      && (exists i :: Introduces(have, entries, i) && entries[i].name == name && entries[i].host == host)
      && (forall j | 0 <= j < k && log[j].CreateUser? :: log[j].name != name)
    case Grant(text) =>
      && LettersAndDigits(text, " '*._%") && k + 1 < |log| && log[k + 1] == Flush
      && exists i :: Introduces(have, entries, i) && text in entries[i].privileges
                     && CreateUser(entries[i].name, entries[i].host) in log[..k]
    case Flush => k > 0 && log[k - 1].Grant?
    case CreateSchema(_) => false
  }

  lemma StaysFounded(have: Accounts, entries: seq<User>, u: User, log: seq<Statement>, more: seq<Statement>, k: int)
    requires 0 <= k < |log| && Founded(have, entries, log, k)
    ensures Founded(have, entries + [u], log + more, k)
  {
    assert forall i | 0 <= i < |entries| :: (entries + [u])[i] == entries[i];
    assert forall i | Introduces(have, entries, i) :: Introduces(have, entries + [u], i);
    assert (log + more)[..k] == log[..k];
    assert forall j | 0 <= j <= k :: (log + more)[j] == log[j];
  }

  /** The statements for a new name are founded. */
  lemma NewFounded(have: Accounts, entries: seq<User>, u: User, log: seq<Statement>, k: int)
    requires Introduces(have, entries + [u], |entries|)
    requires forall j | 0 <= j < |log| :: Founded(have, entries, log, j)
    requires |log| <= k < |log| + 1 + |Grants(u.privileges)|
    ensures Founded(have, entries + [u], log + [CreateUser(u.name, u.host)] + Grants(u.privileges), k)
  {
    var first, g := CreateUser(u.name, u.host), Grants(u.privileges);
    var all := log + [first] + g;
    if k == |log| {
      forall j | 0 <= j < k && all[j].CreateUser?
        ensures all[j].name != u.name
      {
        assert Founded(have, entries, log, j) && all[j] == log[j];
        assert forall i | 0 <= i < |entries| :: (entries + [u])[i] == entries[i];
      }
    } else {
      GrantsAre(u.privileges, "");
      var m := k - |log| - 1;
      assert all[k] == g[m] && all[k - 1] == if m == 0 then first else g[m - 1];
      assert m % 2 == 0 ==> all[k + 1] == g[m + 1];
      assert all[..k][|log|] == first;
    }
  }

  /** Every statement about users is about the first entry of a new name, whose creation is sent once
      and before its privileges. */
  lemma {:induction false} StatementsFounded(have: Accounts, entries: seq<User>, k: int)
    requires 0 <= k < |UserStatements(have, entries)|
    ensures Founded(have, entries, UserStatements(have, entries), k)
  {
    var n := |entries| - 1;
    var u, prev := entries[n], entries[..n];
    var log := UserStatements(have, prev);
    assert entries == prev + [u];
    forall j | 0 <= j < |log|
      ensures Founded(have, prev, log, j)
    {
      StatementsFounded(have, prev, j);
    }
    Dealt(have, entries, n);
    if k < |log| {
      StaysFounded(have, prev, u, log, UserStatements(have, entries)[|log|..], k);
      assert UserStatements(have, entries) == log + UserStatements(have, entries)[|log|..];
    } else {
      NewFounded(have, prev, u, log, k);
      assert UserStatements(have, entries) == log + [CreateUser(u.name, u.host)] + Grants(u.privileges);
    }
  }

  lemma {:induction false} StatementsCompletePrefix(have: Accounts, entries: seq<User>, i: int, text: string, n: nat)
    requires Introduces(have, entries, i) && i < n <= |entries|
    ensures CreateUser(entries[i].name, entries[i].host) in UserStatements(have, entries[..n])
    ensures text in entries[i].privileges && LettersAndDigits(text, " '*._%") ==>
              Grant(text) in UserStatements(have, entries[..n])
  {
    assert entries[..n][..n - 1] == entries[..n - 1];
    if i < n - 1 {
      StatementsCompletePrefix(have, entries, i, text, n - 1);
    } else {
      Dealt(have, entries, i);
      GrantsAre(entries[i].privileges, text);
    }
  }

  /** And the first entry of each new name has its statements. */
  lemma StatementsComplete(have: Accounts, entries: seq<User>, i: int, text: string)
    requires Introduces(have, entries, i)
    ensures CreateUser(entries[i].name, entries[i].host) in UserStatements(have, entries)
    ensures text in entries[i].privileges && LettersAndDigits(text, " '*._%") ==>
              Grant(text) in UserStatements(have, entries)
  {
    StatementsCompletePrefix(have, entries, i, text, |entries|);
    assert entries[..|entries|] == entries;
  }

  /** A listed schema that is not there is created if it has no character but letters and digits, and is
      there afterwards unless its name is empty. */
  lemma {:induction false} SchemasAre(have: set<string>, names: seq<string>, name: string)
    ensures CreateSchema(name) in SchemaStatements(have, names) <==>
            name in names && name !in have && LettersAndDigits(name, "")
    ensures name in SchemasAfter(have, names) <==>
            name in have || (name in names && name != "" && LettersAndDigits(name, ""))
    ensures forall k | 0 <= k < |SchemaStatements(have, names)| :: SchemaStatements(have, names)[k].CreateSchema?
  {
    if names != [] {
      var n := |names| - 1;
      SchemasAre(have, names[..n], name);
      assert names == names[..n] + [names[n]];
      assert LettersAndDigits(name, "") <==> forall c | c in name :: Alphanumeric(c);
    }
  }

  lemma {:induction false} UsersGrow(have: Accounts, entries: seq<User>)
    ensures have <= UsersAfter(have, entries)
  {
    if entries != [] {
      UsersGrow(have, entries[..|entries| - 1]);
    }
  }

  /** A run that stopped after any number of entries, followed by a complete one, leaves what one
      complete run leaves. */
  lemma {:induction false} UsersResume(have: Accounts, entries: seq<User>, k: nat, n: nat)
    requires k <= n <= |entries|
    ensures UsersAfter(UsersAfter(have, entries[..k]), entries[..n]) == UsersAfter(have, entries[..n])
  {
    if k == n {
      SecondRunKeepsUsers(have, entries[..n]);
    } else {
      UsersResume(have, entries, k, n - 1);
      assert entries[..n][..n - 1] == entries[..n - 1];
    }
  }

  lemma {:induction false} UsersSettled(have: Accounts, entries: seq<User>, n: nat)
    requires n <= |entries| && forall i | 0 <= i < |entries| :: Named(have, entries[i].name)
    ensures UsersAfter(have, entries[..n]) == have && UserStatements(have, entries[..n]) == []
  {
    if n > 0 {
      UsersSettled(have, entries, n - 1);
      assert entries[..n][..n - 1] == entries[..n - 1];
    }
  }

  /** A second run issues no statement about users. */
  lemma SecondRunKeepsUsers(have: Accounts, entries: seq<User>)
    ensures UserStatements(UsersAfter(have, entries), entries) == []
    ensures UsersAfter(UsersAfter(have, entries), entries) == UsersAfter(have, entries)
  {
    forall i | 0 <= i < |entries|
      ensures Named(UsersAfter(have, entries), entries[i].name)
    {
      NamedAfter(have, entries, entries[i].name);
    }
    UsersSettled(UsersAfter(have, entries), entries, |entries|);
    assert entries[..|entries|] == entries;
  }

  /** Nor about schemas, exactly when no empty name is listed: an empty name passes the pattern, is
      never found, and is tried again in every run. */
  lemma {:induction false} SecondRunKeepsSchemas(have: set<string>, all: seq<string>, n: nat)
    requires n <= |all|
    ensures SchemaStatements(SchemasAfter(have, all), all[..n]) == [] <==>
            ("" in SchemasAfter(have, all) || "" !in all[..n])
  {
    if n > 0 {
      var now := SchemasAfter(have, all);
      SecondRunKeepsSchemas(have, all, n - 1);
      assert all[..n][..n - 1] == all[..n - 1] && all[..n] == all[..n - 1] + [all[n - 1]];
      assert all[n - 1] in all;
    }
  }

  // ----- what provisioning does to the server's data

  datatype Data = Data(users: Accounts, schemas: set<string>, log: seq<Statement>, errors: nat)

  /** What an object lists; no list of users is not the same as an empty one. */
  datatype Entries = Entries(users: Option<seq<User>>, databases: seq<string>)

  function EntriesOf(o: Rds): Entries
    reads o, o.databases, o.users
  {
    Entries(if o.users == null then None else Some(o.users.items),
            if o.databases == null then [] else o.databases[..])
  }

  /** Nothing is removed; the users of a first part of the list and some of the schemas are added. */
  ghost predicate Provisioning(d: Data, d': Data, entries: Entries) {
    && d.errors <= d'.errors
    && d.users <= d'.users
    && d.schemas <= d'.schemas <= SchemasAfter(d.schemas, entries.databases)
    && match entries.users
       case None => d'.users == d.users && d'.schemas == d.schemas
       case Some(users) => exists n | 0 <= n <= |users| :: d'.users == UsersAfter(d.users, users[..n])
  }

  /** All users have been dealt with, and all schemas unless the server answered with an error. */
  ghost predicate Provisioned(d: Data, d': Data, entries: Entries) {
    && entries.users.Some? && d'.users == UsersAfter(d.users, entries.users.value)
    && (d'.errors == d.errors ==>
          && d'.schemas == SchemasAfter(d.schemas, entries.databases)
          && d'.log == d.log + UserStatements(d.users, entries.users.value)
                             + SchemaStatements(d.schemas, entries.databases))
  }

  /** What an attempt does to the data: nothing unless provisioning is wanted, and all of it when it
      is wanted and the attempt succeeds. */
  ghost predicate SqlStep(d: Data, d': Data, engine: string, entries: Entries, wanted: bool, r: Outcome) {
    && (!wanted || engine != "MySQL" ==> d' == d)
    && Provisioning(d, d', entries)
    && (wanted && r.Ok? ==> engine == "MySQL" && Provisioned(d, d', entries))
  }

  lemma NothingProvisioned(d: Data, entries: Entries)
    ensures Provisioning(d, d, entries)
  {
    if entries.users.Some? {
      assert entries.users.value[..0] == [];
    }
  }

  predicate UsersPresent(d: Data, entries: Entries) {
    entries.users.Some? ==> forall i | 0 <= i < |entries.users.value| :: Named(d.users, entries.users.value[i].name)
  }

  predicate SchemasPresent(d: Data, entries: Entries) {
    Wanted(entries.databases) <= d.schemas
  }

  /** After a successful attempt, what is listed is there if and only if provisioning was wanted or it
      was there before; for schemas this needs that the server answered nothing with an error. */
  lemma ProvisionedIff(d: Data, d': Data, engine: string, entries: Entries, wanted: bool)
    requires SqlStep(d, d', engine, entries, wanted, Ok)
    ensures UsersPresent(d', entries) <==> wanted || UsersPresent(d, entries)
    ensures d'.errors == d.errors ==> (SchemasPresent(d', entries) <==> wanted || SchemasPresent(d, entries))
  {
    if wanted {
      forall i | 0 <= i < |entries.users.value|
        ensures Named(d'.users, entries.users.value[i].name)
      {
        NamedAfter(d.users, entries.users.value, entries.users.value[i].name);
      }
    }
  }

  // ----- the server and the loops

  class Database {
    var users: Accounts
    var schemas: set<string>
    var log: seq<Statement>
    /** How many answers so far were errors; the refusal of an empty schema name is not counted. */
    var errors: nat

    function Now(): Data
      reads this
    {
      Data(users, schemas, log, errors)
    }

    method Answer() returns (ok: bool)
      modifies this`errors
      ensures errors == old(errors) + if ok then 0 else 1
    {
      ok := *;
      errors := errors + if ok then 0 else 1;
    }

    method HasUser(name: string) returns (ok: bool, found: bool)
      modifies this`errors
      ensures errors == old(errors) + if ok then 0 else 1
      ensures ok ==> found == Named(users, name)
    {
      ok := Answer();
      found := Named(users, name);
    }

    /** `CREATE USER IF NOT EXISTS`. */
    method CreateUserAt(name: string, host: string) returns (ok: bool)
      modifies this`users, this`log, this`errors
      ensures log == old(log) + [CreateUser(name, host)] && errors == old(errors) + if ok then 0 else 1
      ensures users == old(users) || users == old(users) + {(name, host)}
      ensures ok ==> users == old(users) + {(name, host)}
    {
      log := log + [CreateUser(name, host)];
      ok := Answer();
      var done: bool := *;
      if ok || done {
        users := users + {(name, host)};
      }
    }

    method HasSchema(name: string) returns (ok: bool, found: bool)
      modifies this`errors
      ensures errors == old(errors) + if ok then 0 else 1
      ensures ok ==> found == (name in schemas)
    {
      ok := Answer();
      found := name in schemas;
    }

    /** `CREATE DATABASE IF NOT EXISTS`, a syntax error without a name. */
    method CreateSchemaNamed(name: string) returns (ok: bool)
      modifies this`schemas, this`log, this`errors
      ensures log == old(log) + [CreateSchema(name)]
      ensures errors == old(errors) + if ok || name == "" then 0 else 1
      ensures schemas == old(schemas) || (name != "" && schemas == old(schemas) + {name})
      ensures ok ==> name != "" && schemas == old(schemas) + {name}
    {
      log := log + [CreateSchema(name)];
      ok := *;
      ok := ok && name != "";
      errors := errors + if ok || name == "" then 0 else 1;
      var done: bool := *;
      if ok || (done && name != "") {
        schemas := schemas + {name};
      }
    }

    /** A grant, after which the privileges are flushed; the failure of either is only logged. */
    method Execute(text: string)
      modifies this`log
      ensures log == old(log) + [Grant(text), Flush]
    {
      log := log + [Grant(text), Flush];
    }

    method GrantAll(privileges: seq<string>)
      modifies this`log
      ensures log == old(log) + Grants(privileges)
    {
      for i := 0 to |privileges|
        invariant log == old(log) + Grants(privileges[..i])
      {
        assert privileges[..i + 1][..i] == privileges[..i];
        if ValidGrant(privileges[i]) {
          Execute(privileges[i]);
        }
      }
      assert privileges[..|privileges|] == privileges;
    }

    /** One entry. A creation that failed may have taken effect, and its grants are then not run. */
    method CreateUserOf(su: User) returns (ok: bool)
      modifies this`users, this`log, this`errors
      ensures errors == old(errors) + if ok then 0 else 1
      ensures Named(old(users), su.name) ==> users == old(users) && log == old(log)
      ensures ok && !Named(old(users), su.name) ==>
                && users == old(users) + {(su.name, su.host)}
                && log == old(log) + [CreateUser(su.name, su.host)] + Grants(su.privileges)
      ensures !ok ==> users == old(users) || users == old(users) + {(su.name, su.host)}
      ensures !ok ==> log == old(log) || log == old(log) + [CreateUser(su.name, su.host)]
    {
      var queried, found := HasUser(su.name);
      if !queried {
        return false;
      }
      if !found {
        var created := CreateUserAt(su.name, su.host);
        if !created {
          return false;
        }
        GrantAll(su.privileges);
      }
      return true;
    }

    /** The user loop. It stops at the first query or creation that fails; the failed creation may
        have taken effect, and its grants are then never run. */
    method CreateUsers(entries: seq<User>) returns (ok: bool, reached: nat)
      modifies this`users, this`log, this`errors
      ensures if ok then errors == old(errors) else errors == old(errors) + 1
      ensures reached <= |entries| && (ok ==> reached == |entries|)
      ensures users == UsersAfter(old(users), entries[..reached])
              || (!ok && reached < |entries| && users == UsersAfter(old(users), entries[..reached + 1]))
      ensures ok ==> users == UsersAfter(old(users), entries)
      ensures ok ==> log == old(log) + UserStatements(old(users), entries)
      ensures log == old(log) + UserStatements(old(users), entries[..reached])
              || (reached < |entries| &&
                  log == old(log) + UserStatements(old(users), entries[..reached])
                                  + [CreateUser(entries[reached].name, entries[reached].host)])
    {
      for i := 0 to |entries|
        invariant users == UsersAfter(old(users), entries[..i])
        invariant log == old(log) + UserStatements(old(users), entries[..i])
        invariant errors == old(errors)
      {
        NextEntry(old(users), entries, i);
        var created := CreateUserOf(entries[i]);
        if !created {
          return false, i;
        }
      }
      assert entries[..|entries|] == entries;
      return true, |entries|;
    }

    /** The schema loop. A failed query stops it; a failed creation is only logged. */
    method CreateSchemas(names: seq<string>) returns (ok: bool)
      modifies this`schemas, this`log, this`errors
      ensures old(schemas) <= schemas <= SchemasAfter(old(schemas), names)
      ensures errors >= old(errors) && (!ok ==> errors > old(errors))
      ensures errors == old(errors) ==>
                && schemas == SchemasAfter(old(schemas), names)
                && log == old(log) + SchemaStatements(old(schemas), names)
    {
      for i := 0 to |names|
        invariant old(schemas) <= schemas <= SchemasAfter(old(schemas), names[..i])
        invariant errors >= old(errors)
        invariant errors == old(errors) ==> schemas == SchemasAfter(old(schemas), names[..i])
        invariant errors == old(errors) ==> log == old(log) + SchemaStatements(old(schemas), names[..i])
      {
        assert names[..i + 1] == names[..i] + [names[i]] && names[..i + 1][..i] == names[..i];
        assert Wanted(names[..i + 1]) == Wanted(names[..i]) + Wanted([names[i]]);
        assert Wanted(names[..i + 1]) <= Wanted(names);
        var ds := names[i];
        if ValidSchema(ds) {
          var queried, found := HasSchema(ds);
          if !queried {
            return false;
          }
          if !found {
            var created := CreateSchemaNamed(ds);
          }
        }
      }
      assert names[..|names|] == names;
      return true;
    }
  }

  lemma AllPresent(users: Accounts, entries: seq<User>, schemas: set<string>, names: seq<string>)
    ensures forall u | u in entries :: Named(UsersAfter(users, entries), u.name)
    ensures forall d | d in names && d != "" && LettersAndDigits(d, "") :: d in SchemasAfter(schemas, names)
  {
    forall u | u in entries
      ensures Named(UsersAfter(users, entries), u.name)
    {
      NamedAfter(users, entries, u.name);
    }
    forall d | d in names && d != "" && LettersAndDigits(d, "")
      ensures d in SchemasAfter(schemas, names)
    {
      SchemasAre(schemas, names, d);
    }
  }

  method CreateSqlUser(db: Database, newRds: Rds) returns (r: Outcome)
    modifies db
    ensures newRds.spec.datastoretype != "MySQL" ==> r.Err? && unchanged(db)
    ensures Provisioning(old(db.Now()), db.Now(), EntriesOf(newRds))
    ensures r.Ok? ==> newRds.spec.datastoretype == "MySQL" && Provisioned(old(db.Now()), db.Now(), EntriesOf(newRds))
    ensures r.Panic? ==> newRds.spec.datastoretype == "MySQL" && newRds.users == null
    ensures r.Err? ==> newRds.spec.datastoretype != "MySQL" || db.errors > old(db.errors)
    ensures r.Ok? ==> newRds.users != null
    ensures r.Ok? ==> forall u | u in newRds.users.items :: exists a | a in db.users :: a.0 == u.name
    ensures r.Ok? && newRds.databases != null && db.errors == old(db.errors) ==>
              forall d | d in newRds.databases[..] && d != "" && LettersAndDigits(d, "") :: d in db.schemas
  {
    NothingProvisioned(db.Now(), EntriesOf(newRds));
    if newRds.spec.datastoretype != "MySQL" {
      return Err;
    }
    var connected := db.Answer();
    if !connected {
      return Err;
    }
    if newRds.users == null {
      return Panic;
    }
    var entries := newRds.users.items;
    var users, n := db.CreateUsers(entries);
    ghost var reached := if db.users == UsersAfter(old(db.users), entries[..n]) then n else n + 1;
    UsersGrow(old(db.users), entries[..reached]);
    if !users {
      return Err;
    }
    assert entries[..n] == entries;
    var names: seq<string> := if newRds.databases == null then [] else newRds.databases[..];
    var ok := db.CreateSchemas(names);
    AllPresent(old(db.users), entries, old(db.schemas), names);
    return if ok then Ok else Err;
  }
}
