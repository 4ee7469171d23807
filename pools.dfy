/** The connection pool registry of `zino-core/src/database/mod.rs`: resolving a
    pool's options from a configuration table, building the registry from the
    `postgres` array, and looking a pool up by name. */
module Pools {
  import opened Wrappers

  type u16 = x: int | 0 <= x < 0x1_0000
  type u32 = x: int | 0 <= x < 0x1_0000_0000
  type usize = x: int | 0 <= x < 0x1_0000_0000_0000_0000

  /** `std::time::Duration`. */
  datatype Duration = Duration(secs: nat, nanos: nat)

  function FromSecs(secs: nat): Duration
  {
    Duration(secs, 0)
  }

  /** A TOML value; `Table` is a TOML table. */
  datatype Toml =
    | TString(s: string)
    | TInteger(i: int)
    | TBoolean(b: bool)
    | TArray(items: seq<Toml>)
    | TTable(entries: map<string, Toml>)

  type Table = map<string, Toml>

  /** `toml::Value::as_table`. */
  function AsTable(v: Toml): Option<Table>
  {
    if v.TTable? then Some(v.entries) else None
  }

  /** The typed getters of `TomlTableExt` and `State::decrypt_password`; their
      parsing rules are not part of this model. */
  datatype TableReader = TableReader(
    getStr: (Table, string) -> Option<string>,
    getUsize: (Table, string) -> Option<usize>,
    getU16: (Table, string) -> Option<u16>,
    getU32: (Table, string) -> Option<u32>,
    getDuration: (Table, string) -> Option<Duration>,
    getArray: (Table, string) -> Option<seq<Toml>>,
    decryptPassword: Table -> Option<string>)

  /** What `PgConnectOptions` is built from. */
  datatype ConnectOptions = ConnectOptions(
    applicationName: string,
    statementCacheCapacity: usize,
    host: string,
    port: u16,
    database: Option<string>,
    username: Option<string>,
    password: Option<string>)

  /** What `PgPoolOptions` is built from. */
  datatype PoolOptions = PoolOptions(
    maxConnections: u32,
    minConnections: u32,
    maxLifetime: Duration,
    idleTimeout: Duration,
    acquireTimeout: Duration)

  /** A named pool; the lazily connected handle is represented by the options
      it was created with. */
  datatype ConnectionPool = ConnectionPool(
    name: string,
    database: string,
    connectOptions: ConnectOptions,
    poolOptions: PoolOptions)

  datatype ConnectionPools = ConnectionPools(pools: seq<ConnectionPool>)

  /** The name a pool gets when its table has no `name` key. */
  const DefaultPoolName := "main"

  const UsernameMissing := "the `postgres.username` field should be a str"
  const PasswordMissing := "the `postgres.password` field should be a str"
  const NameMissing := "the `name` field should be a str"
  const PostgresMissing := "the `postgres` field should be an array of tables"

  /** `ConnectionPool::connect_lazy`: resolves every option from `config`, with
      its default where the key is absent. `Err` carries the message of the
      `expect` that panics. */
  function ConnectLazy(applicationName: string, config: Table, reader: TableReader): (r: Result<ConnectionPool, string>)
    // The only failures: a `database` key without a username or a password.
    ensures r.Err? <==> reader.getStr(config, "database").Some? &&
                        (reader.getStr(config, "username").None? || reader.decryptPassword(config).None?)
    ensures r.Err? && reader.getStr(config, "username").None? ==> r.error == UsernameMissing
    ensures r.Err? && reader.getStr(config, "username").Some? ==> r.error == PasswordMissing
  {
    var base := ConnectOptions(
      applicationName,
      reader.getUsize(config, "statement-cache-capacity").GetOr(100),
      reader.getStr(config, "host").GetOr("127.0.0.1"),
      reader.getU16(config, "port").GetOr(5432),
      None, None, None);
    var connect :- match reader.getStr(config, "database")
      case None => Ok(base)
      case Some(database) =>
        match reader.getStr(config, "username")
        case None => Err(UsernameMissing)
        case Some(username) =>
          match reader.decryptPassword(config)
          case None => Err(PasswordMissing)
          case Some(password) =>
            Ok(base.(database := Some(database), username := Some(username), password := Some(password)));
    var options := PoolOptions(
      reader.getU32(config, "max-connections").GetOr(16),
      reader.getU32(config, "min-connections").GetOr(2),
      reader.getDuration(config, "max-lifetime").GetOr(FromSecs(60 * 60)),
      reader.getDuration(config, "idle-timeout").GetOr(FromSecs(10 * 60)),
      reader.getDuration(config, "acquire-timeout").GetOr(FromSecs(30)));
    Ok(ConnectionPool(
      reader.getStr(config, "name").GetOr(DefaultPoolName),
      connect.database.GetOr(""),
      connect,
      options))
  }

  /** The connect options `connect_lazy` resolves: each default applies
      exactly when its key is absent. */
  lemma ConnectOptionsResolved(applicationName: string, config: Table, reader: TableReader)
    requires ConnectLazy(applicationName, config, reader).Ok?
    ensures var o := ConnectLazy(applicationName, config, reader).value.connectOptions;
            o.applicationName == applicationName &&
            o.statementCacheCapacity == (if reader.getUsize(config, "statement-cache-capacity").Some?
                                         then reader.getUsize(config, "statement-cache-capacity").value else 100) &&
            o.host == (if reader.getStr(config, "host").Some? then reader.getStr(config, "host").value else "127.0.0.1") &&
            o.port == (if reader.getU16(config, "port").Some? then reader.getU16(config, "port").value else 5432)
  {
  }

  /** Database, username and password are applied only when `database` is
      present; otherwise the pool has an empty database name. */
  lemma CredentialsResolved(applicationName: string, config: Table, reader: TableReader)
    requires ConnectLazy(applicationName, config, reader).Ok?
    ensures var p := ConnectLazy(applicationName, config, reader).value;
            reader.getStr(config, "database").Some? ==>
              p.database == reader.getStr(config, "database").value &&
              p.connectOptions.database == reader.getStr(config, "database") &&
              p.connectOptions.username == reader.getStr(config, "username") &&
              p.connectOptions.password == reader.decryptPassword(config)
    ensures var p := ConnectLazy(applicationName, config, reader).value;
            reader.getStr(config, "database").None? ==>
              p.database == "" && p.connectOptions.database.None? &&
              p.connectOptions.username.None? && p.connectOptions.password.None?
  {
  }

  /** The pool options and the name `connect_lazy` resolves: each default
      applies exactly when its key is absent. */
  lemma PoolOptionsResolved(applicationName: string, config: Table, reader: TableReader)
    requires ConnectLazy(applicationName, config, reader).Ok?
    ensures var o := ConnectLazy(applicationName, config, reader).value.poolOptions;
            o.maxConnections == (if reader.getU32(config, "max-connections").Some?
                                 then reader.getU32(config, "max-connections").value else 16) &&
            o.minConnections == (if reader.getU32(config, "min-connections").Some?
                                 then reader.getU32(config, "min-connections").value else 2) &&
            o.maxLifetime == (if reader.getDuration(config, "max-lifetime").Some?
                              then reader.getDuration(config, "max-lifetime").value else FromSecs(3600)) &&
            o.idleTimeout == (if reader.getDuration(config, "idle-timeout").Some?
                              then reader.getDuration(config, "idle-timeout").value else FromSecs(600)) &&
            o.acquireTimeout == (if reader.getDuration(config, "acquire-timeout").Some?
                                 then reader.getDuration(config, "acquire-timeout").value else FromSecs(30))
    ensures ConnectLazy(applicationName, config, reader).value.name ==
            (if reader.getStr(config, "name").Some? then reader.getStr(config, "name").value else DefaultPoolName)
  {
  }

  /** `ConnectionPools::get_pool`: the first pool in registry order with that name. */
  function GetPool(registry: ConnectionPools, name: string): (r: Option<ConnectionPool>)
    ensures r.None? <==> forall i :: 0 <= i < |registry.pools| ==> registry.pools[i].name != name
    ensures r.Some? ==> exists i :: 0 <= i < |registry.pools| && registry.pools[i] == r.value &&
                                    r.value.name == name &&
                                    forall j :: 0 <= j < i ==> registry.pools[j].name != name
    decreases |registry.pools|
  {
    if |registry.pools| == 0 then None
    else if registry.pools[0].name == name then Some(registry.pools[0])
    else
      var rest := GetPool(ConnectionPools(registry.pools[1..]), name);
      assert forall i :: 1 <= i < |registry.pools| ==> registry.pools[i] == registry.pools[1..][i - 1];
      rest
  }

  /** The entries of the `postgres` array that are tables, in array order. */
  function Tables(items: seq<Toml>): (r: seq<Table>)
    decreases |items|
  {
    if |items| == 0 then []
    else
      var last := items[|items| - 1];
      Tables(items[..|items| - 1]) + (if last.TTable? then [last.entries] else [])
  }

  /** `Tables` keeps exactly the table entries, in order: the tables of a
      concatenation are the tables of each part. */
  lemma {:induction false} TablesAppend(a: seq<Toml>, b: seq<Toml>)
    ensures Tables(a + b) == Tables(a) + Tables(b)
    decreases |b|
  {
    if |b| > 0 {
      var b' := b[..|b| - 1];
      assert (a + b)[..|a + b| - 1] == a + b';
      TablesAppend(a, b');
    } else {
      assert a + b == a;
    }
  }

  /** The pools built from the `postgres` array, in array order, skipping
      entries that are not tables; the first failing table stops the build. */
  function RegistryPools(applicationName: string, items: seq<Toml>, reader: TableReader): Result<seq<ConnectionPool>, string>
    decreases |items|
  {
    if |items| == 0 then Ok([])
    else
      var pools :- RegistryPools(applicationName, items[..|items| - 1], reader);
      match AsTable(items[|items| - 1])
      case None => Ok(pools)
      case Some(table) =>
        var pool :- ConnectLazy(applicationName, table, reader);
        Ok(pools + [pool])
  }

  /** Once a prefix of the array fails, the whole build fails with that error. */
  lemma {:induction false} RegistryPoolsPrefixError(applicationName: string, a: seq<Toml>, b: seq<Toml>, reader: TableReader)
    requires RegistryPools(applicationName, a, reader).Err?
    ensures RegistryPools(applicationName, a + b, reader) == RegistryPools(applicationName, a, reader)
    decreases |b|
  {
    if |b| == 0 {
      assert a + b == a;
    } else {
      assert (a + b)[..|a + b| - 1] == a + b[..|b| - 1];
      RegistryPoolsPrefixError(applicationName, a, b[..|b| - 1], reader);
    }
  }

  /** The registry holds exactly one pool per table entry, in array order, each
      the result of `connect_lazy` on that table; a failure is the failure of
      one of the tables. */
  lemma {:induction false} RegistryPoolsShape(applicationName: string, items: seq<Toml>, reader: TableReader)
    ensures var r := RegistryPools(applicationName, items, reader);
            var tables := Tables(items);
            (r.Ok? ==> |r.value| == |tables| &&
                       forall i :: 0 <= i < |tables| ==> ConnectLazy(applicationName, tables[i], reader) == Ok(r.value[i])) &&
            (r.Err? ==> exists i :: 0 <= i < |tables| && ConnectLazy(applicationName, tables[i], reader) == Err(r.error))
    decreases |items|
  {
    if |items| > 0 {
      var init := items[..|items| - 1];
      RegistryPoolsShape(applicationName, init, reader);
      var tables := Tables(init);
      var r := RegistryPools(applicationName, init, reader);
      var last := items[|items| - 1];
      assert Tables(items) == tables + (if last.TTable? then [last.entries] else []);
      if r.Err? {
        var i :| 0 <= i < |tables| && ConnectLazy(applicationName, tables[i], reader) == Err(r.error);
        assert Tables(items)[i] == tables[i];
      } else if last.TTable? && ConnectLazy(applicationName, last.entries, reader).Err? {
        assert Tables(items)[|tables|] == last.entries;
      }
    }
  }

  /** `SHARED_CONNECTION_POOLS`: one pool per table of the `postgres` array, in
      array order. `Err` carries the message of the first `expect` that panics. */
  method BuildRegistry(config: Table, reader: TableReader) returns (r: Result<ConnectionPools, string>)
    ensures reader.getStr(config, "name").None? ==> r == Err(NameMissing)
    ensures reader.getStr(config, "name").Some? && reader.getArray(config, "postgres").None? ==> r == Err(PostgresMissing)
    ensures reader.getStr(config, "name").Some? && reader.getArray(config, "postgres").Some? ==>
      var built := RegistryPools(reader.getStr(config, "name").value, reader.getArray(config, "postgres").value, reader);
      (r.Ok? <==> built.Ok?) &&
      (r.Ok? ==> r.value.pools == built.value) &&
      (r.Err? ==> r.error == built.error)
  {
    var applicationName := reader.getStr(config, "name");
    if applicationName.None? {
      return Err(NameMissing);
    }
    var databases := reader.getArray(config, "postgres");
    if databases.None? {
      return Err(PostgresMissing);
    }
    var app := applicationName.value;
    var items := databases.value;
    var pools: seq<ConnectionPool> := [];
    var k := 0;
    while k < |items|
      invariant 0 <= k <= |items|
      invariant RegistryPools(app, items[..k], reader) == Ok(pools)
    {
      assert items[..k + 1][..k] == items[..k];
      var table := AsTable(items[k]);
      if table.Some? {
        var pool := ConnectLazy(app, table.value, reader);
        if pool.Err? {
          assert RegistryPools(app, items[..k + 1], reader) == Err(pool.error);
          assert items == items[..k + 1] + items[k + 1..];
          RegistryPoolsPrefixError(app, items[..k + 1], items[k + 1..], reader);
          return Err(pool.error);
        }
        pools := pools + [pool.value];
      }
      k := k + 1;
    }
    assert items[..k] == items;
    r := Ok(ConnectionPools(pools));
  }

  /** A pool whose table has no `name` key is registered as "main", so the
      lookup by the default reader/writer name finds a pool. */
  lemma UnnamedPoolIsMain(registry: ConnectionPools, i: nat, applicationName: string, config: Table, reader: TableReader)
    requires i < |registry.pools|
    requires reader.getStr(config, "name").None?
    requires ConnectLazy(applicationName, config, reader) == Ok(registry.pools[i])
    ensures GetPool(registry, DefaultPoolName).Some?
  {
    PoolOptionsResolved(applicationName, config, reader);
  }
}
