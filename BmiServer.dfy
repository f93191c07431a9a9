/**
 * The single-machine server (bmi_server.py): a configuration store whose
 * current key the tools switch and read, and the database tools that go
 * through the current profile. `SQL_CONFIG` is the profile of the start-up
 * key, looked up once when the server starts.
 */
module BmiServer {
  import opened Wrappers
  import opened Text
  import opened Odbc
  import opened SqlConfig
  import opened QueryFilter
  import Rows
  import opened Driver
  import opened Network

  /** `CURRENT_SQL_CONFIG` when the server starts. */
  const StartupKey := "docker_test"

  /** One entry of `list_sql_configurations`. */
  datatype ConfigEntry = ConfigEntry(
    key: string,
    name: string,
    server: string,
    database: string,
    authentication: string,
    description: string,
    isCurrent: bool)

  datatype ConfigListing = ConfigListing(currentConfig: string, totalConfigs: nat, configurations: seq<ConfigEntry>)

  function EntryOf(key: string, p: Profile, current: string): ConfigEntry {
    ConfigEntry(key, p.name, p.server, p.database, p.authentication, p.description, key == current)
  }

  /** The listing of a table, in table order, against a current key. */
  function Listing(table: Table, current: string): (r: ConfigListing)
    ensures r.currentConfig == current && r.totalConfigs == |r.configurations| == |table|
    ensures forall i :: 0 <= i < |table| ==>
              && r.configurations[i].key == table[i].0
              && r.configurations[i].name == table[i].1.name
              && r.configurations[i].server == table[i].1.server
              && r.configurations[i].database == table[i].1.database
              && r.configurations[i].authentication == table[i].1.authentication
              && r.configurations[i].description == table[i].1.description
              && (r.configurations[i].isCurrent <==> table[i].0 == current)
  {
    ConfigListing(current, |table|,
                  seq(|table|, i requires 0 <= i < |table| => EntryOf(table[i].0, table[i].1, current)))
  }

  /**
   * With distinct keys and a current key from the table, exactly one entry
   * is marked current, and it is the one under the current key.
   */
  lemma ListingMarksOne(table: Table, current: string)
    requires DistinctKeys(table) && current in Keys(table)
    ensures var entries := Listing(table, current).configurations;
            exists i :: 0 <= i < |entries| && entries[i].isCurrent && entries[i].key == current
                        && forall j :: 0 <= j < |entries| && entries[j].isCurrent ==> j == i
  {
    var entries := Listing(table, current).configurations;
    var i :| 0 <= i < |table| && Keys(table)[i] == current;
    assert entries[i].key == table[i].0 == current;
    forall j | 0 <= j < |entries| && entries[j].isCurrent
      ensures j == i
    {
      assert table[j].0 == current;
    }
  }

  datatype SwitchReply =
    | SwitchFailed(error: string)
    | Switched(message: string, oldConfig: string, newConfig: string, configDetails: string)

  /** What `get_table_list` reads for each table. */
  datatype TableRow = TableRow(schema: string, name: string, kind: string)

  datatype TableEntry = TableEntry(schema: string, tableName: string, tableType: string, fullName: string)

  datatype TableListReply =
    | TablesFailed(error: string)
    | Tables(tableCount: nat, tables: seq<TableEntry>)

  /** The qualified name `schema.table` both catalog tools print. */
  function QualifiedName(schema: string, table: string): string {
    schema + "." + table
  }

  /**
   * A qualified name reads back as its parts when the schema holds no dot:
   * the first dot is the one that was inserted.
   */
  lemma QualifiedNameSplits(schema: string, table: string)
    requires '.' !in schema
    ensures var q := QualifiedName(schema, table);
            && IndexOf(q, '.') == Some(|schema|)
            && q[..|schema|] == schema && q[|schema| + 1..] == table
  {
    IndexOfAt(schema, '.', table);
    var q := QualifiedName(schema, table);
    assert q == schema + ['.'] + table;
  }

  /** A catalog row's entry; its full name splits back into the row's schema and table. */
  function TableEntryOf(row: TableRow): (e: TableEntry)
    ensures e.schema == row.schema && e.tableName == row.name && e.tableType == row.kind
    ensures '.' !in row.schema ==>
              && IndexOf(e.fullName, '.') == Some(|row.schema|)
              && e.fullName[..|row.schema|] == row.schema && e.fullName[|row.schema| + 1..] == row.name
  {
    var e := TableEntry(row.schema, row.name, row.kind, QualifiedName(row.schema, row.name));
    if '.' in row.schema then e
    else QualifiedNameSplits(row.schema, row.name); e
  }

  /** What `get_table_schema` reads for each column. */
  datatype ColumnRow = ColumnRow(
    columnName: string,
    dataType: string,
    isNullable: string,
    maxLength: Option<int>,
    numericPrecision: Option<int>,
    numericScale: Option<int>,
    defaultValue: Option<string>,
    position: int)

  datatype SchemaReply =
    | SchemaFailed(error: string, tableName: string)
    | NotFound(error: string)
    | Schema(tableName: string, columnCount: nat, columns: seq<ColumnRow>)

  /** The catalog of a connection: its tables, or the columns of one table. */
  type TableCatalog = string -> Catalog<TableRow>
  type ColumnCatalog = (string, string, string) -> Catalog<ColumnRow>

  datatype BmiQueryReply =
    | Refused(error: string)
    | QueryOk(rowCount: nat, columns: seq<string>, data: seq<Rows.Record>)
    | QueryFailed(error: string, query: string)

  datatype ConnectionReply =
    | Connected(serverVersion: string, databaseName: string, server: string, database: string)
    | NotConnected(error: string, server: string, database: string)

  /** `SQL_CONFIGURATIONS` with the global `CURRENT_SQL_CONFIG` and `SQL_CONFIG`. */
  class ConfigurationStore {
    const table: Table
    /** `SQL_CONFIG`: the start-up profile, never refreshed by a switch. */
    const startup: Profile
    var current: string

    predicate Valid()
      reads this
    {
      && Builds(table)
      && DistinctKeys(table)
      && current in Keys(table)
      && Find(table, StartupKey) == Some(startup)
    }

    constructor(env: Environment)
      ensures Valid()
      ensures table == Configurations(env) && current == StartupKey
    {
      var table := Configurations(env);
      ShippedStore(env);
      this.table := table;
      this.startup := Find(table, StartupKey).value;
      this.current := StartupKey;
    }

    /**
     * `get_connection_string(config_name)`: the named profile, or the
     * current one when no name (or an empty one) is given.
     */
    function ConnectionString(name: Option<string>): (r: Result<string, PyError>)
      requires Valid()
      reads this
      ensures name.None? || name.value == "" ==> r.Success? && r == ConnectionStringFor(table, current)
      ensures name.Some? && name.value != "" ==>
                && (r.Success? <==> name.value in Keys(table))
                && r == ConnectionStringFor(table, name.value)
    {
      var key := if name.None? || name.value == "" then current else name.value;
      if key !in Keys(table) then
        UnknownConfigurationRefused(table, key);
        ConnectionStringFor(table, key)
      else
        ConnectionStringFor(table, key)
    }

    /**
     * `set_sql_configuration`: an unknown name is refused with the list of
     * keys and changes nothing; a known name becomes current, and the
     * connection string without a name is then that profile's.
     */
    method SetConfiguration(name: string) returns (r: SwitchReply)
      requires Valid()
      modifies this
      ensures Valid()
      ensures name !in Keys(table) ==>
                r == SwitchFailed(NotFoundMessage(name, table)) && current == old(current)
      ensures name in Keys(table) ==>
                && current == name
                && r == Switched("SQL configuration switched from '" + old(current) + "' to '" + name + "'",
                                 old(current), name, Find(table, name).value.description)
                && ConnectionString(None) == ConnectionStringFor(table, name)
    {
      if name !in Keys(table) {
        return SwitchFailed(NotFoundMessage(name, table));
      }
      var previous := current;
      current := name;
      r := Switched("SQL configuration switched from '" + previous + "' to '" + name + "'",
                    previous, name, Find(table, name).value.description);
    }

    /** `list_sql_configurations`: one entry per key, in table order. */
    method ListConfigurations() returns (r: ConfigListing)
      ensures r == Listing(table, current)
    {
      var entries, key := table, current;
      var configs: seq<ConfigEntry> := [];
      var i := 0;
      while i < |entries|
        invariant 0 <= i <= |entries| && |configs| == i
        invariant forall k :: 0 <= k < i ==> configs[k] == EntryOf(entries[k].0, entries[k].1, key)
      {
        configs := configs + [EntryOf(entries[i].0, entries[i].1, key)];
        i := i + 1;
      }
      ghost var listing := Listing(entries, key);
      assert forall k :: 0 <= k < |configs| ==> listing.configurations[k] == configs[k];
      r := ConfigListing(key, |configs|, configs);
    }

    /**
     * `query_sql_server`: the guard first; a query that passes is run, as
     * written, over the current profile's connection.
     */
    method QuerySqlServer(db: Database, query: string) returns (r: BmiQueryReply)
      requires Valid()
      ensures Check(query) != Allowed ==> r == Refused(RefusalMessage(Check(query)))
      ensures Check(query) == Allowed ==> !r.Refused?
      ensures r.QueryOk? ==>
                var fetch := db(ConnectionString(None).value, query);
                && fetch.Fetched? && r.columns == fetch.columns
                && Rows.NormalizedRows(fetch.columns, fetch.rows) == Success(r.data)
                && r.rowCount == |r.data| == |fetch.rows|
      ensures Check(query) == Allowed && db(ConnectionString(None).value, query).Fetched? ==>
                var fetch := db(ConnectionString(None).value, query);
                r.QueryOk? <==> Rows.RowsFit(fetch.columns, fetch.rows)
      ensures r.QueryFailed? ==> r.query == query
      ensures Check(query) == Allowed && db(ConnectionString(None).value, query).FetchFailed? ==>
                r.QueryFailed? && r.error == db(ConnectionString(None).value, query).message
      ensures Check(query) == Allowed && db(ConnectionString(None).value, query).Fetched? ==>
                var fetch := db(ConnectionString(None).value, query);
                !Rows.RowsFit(fetch.columns, fetch.rows) ==> r.QueryFailed? && r.error == "list index out of range"
    {
      var verdict := Check(query);
      if verdict != Allowed {
        return Refused(RefusalMessage(verdict));
      }
      var conn := ConnectionString(None).value;
      var fetch := db(conn, query);
      match fetch {
        case FetchFailed(m) =>
          r := QueryFailed(m, query);
        case Fetched(columns, rows) =>
          var data := Rows.NormalizeRows(columns, rows);
          Rows.NormalizedRowsShape(columns, rows);
          match data {
            case Failure(e) =>
              r := QueryFailed(e.Str(), query);
            case Success(records) =>
              r := QueryOk(|records|, columns, records);
          }
      }
    }

    /** `get_table_list`: one entry per table, each with its qualified name. */
    method GetTableList(catalog: TableCatalog) returns (r: TableListReply)
      requires Valid()
      ensures var c := catalog(ConnectionString(None).value);
              && (r.TablesFailed? <==> c.CatalogFailed?)
              && (r.TablesFailed? ==> r.error == c.message)
              && (r.Tables? ==>
                    && r.tableCount == |r.tables| == |c.rows|
                    && forall i :: 0 <= i < |r.tables| ==> r.tables[i] == TableEntryOf(c.rows[i]))
    {
      var fetched := catalog(ConnectionString(None).value);
      match fetched {
        case CatalogFailed(m) =>
          return TablesFailed(m);
        case CatalogRows(rows) =>
          var results: seq<TableEntry> := [];
          var i := 0;
          while i < |rows|
            invariant 0 <= i <= |rows| && |results| == i
            invariant forall k :: 0 <= k < i ==> results[k] == TableEntryOf(rows[k])
          {
            results := results + [TableEntryOf(rows[i])];
            i := i + 1;
          }
          r := Tables(|results|, results);
      }
    }

    /**
     * `get_table_schema`: the table's columns in order; no column at all
     * means the table is reported as not found.
     */
    method GetTableSchema(catalog: ColumnCatalog, tableName: string, schemaName: string) returns (r: SchemaReply)
      requires Valid()
      ensures var c := catalog(ConnectionString(None).value, tableName, schemaName);
              && (r.SchemaFailed? <==> c.CatalogFailed?)
              && (r.SchemaFailed? ==>
                    r.error == c.message && r.tableName == QualifiedName(schemaName, tableName))
              && (r.NotFound? <==> c.CatalogRows? && |c.rows| == 0)
              && (r.NotFound? ==>
                    r.error == "Table '" + QualifiedName(schemaName, tableName) + "' not found")
              && (r.Schema? ==>
                    && r.tableName == QualifiedName(schemaName, tableName)
                    && r.columnCount == |r.columns| == |c.rows| > 0
                    && r.columns == c.rows)
    {
      var fetched := catalog(ConnectionString(None).value, tableName, schemaName);
      match fetched {
        case CatalogFailed(m) =>
          return SchemaFailed(m, QualifiedName(schemaName, tableName));
        case CatalogRows(rows) =>
          var results: seq<ColumnRow> := [];
          var i := 0;
          while i < |rows|
            invariant 0 <= i <= |rows|
            invariant results == rows[..i]
          {
            results := results + [rows[i]];
            i := i + 1;
          }
          assert rows[..|rows|] == rows;
          if |results| == 0 {
            return NotFound("Table '" + QualifiedName(schemaName, tableName) + "' not found");
          }
          r := Schema(QualifiedName(schemaName, tableName), |results|, results);
      }
    }

    /**
     * `test_sql_connection`: the probe runs over the current profile's
     * connection, but the reply names the start-up profile's server and
     * database.
     */
    function TestSqlConnection(probe: string -> Probe): (r: ConnectionReply)
      requires Valid()
      reads this
      ensures var p := probe(ConnectionString(None).value);
              && (r.Connected? <==> p.ProbeRow?)
              && (r.Connected? && p.row.None? ==> r.serverVersion == "Unknown" && r.databaseName == "Unknown")
              && (r.Connected? && p.row.Some? ==>
                    r.serverVersion == p.row.value.0 && r.databaseName == p.row.value.1)
              && (r.NotConnected? ==> r.error == p.message)
      ensures r.server == Find(table, StartupKey).value.server
      ensures r.database == Find(table, StartupKey).value.database
    {
      match probe(ConnectionString(None).value)
      case ProbeFailed(m) => NotConnected(m, startup.server, startup.database)
      case ProbeRow(row) =>
        match row
        case None => Connected("Unknown", "Unknown", startup.server, startup.database)
        case Some(values) => Connected(values.0, values.1, startup.server, startup.database)
    }

    /** `test_network_connectivity`: always the start-up profile's server, on port 1433. */
    function TestNetworkConnectivity(outcome: ConnectOutcome): (r: ConnectivityReport)
      requires Valid()
      reads this
      ensures r.server == Find(table, StartupKey).value.server && r.port == SqlServerPort
      ensures r == Connectivity(Find(table, StartupKey).value.server, outcome)
    {
      Connectivity(startup.server, outcome)
    }
  }

  /** The shipped table meets the store's invariant with the start-up key current. */
  lemma ShippedStore(env: Environment)
    ensures var table := Configurations(env);
            && Builds(table) && DistinctKeys(table)
            && StartupKey in Keys(table) && Find(table, StartupKey).Some?
  {
    var table := Configurations(env);
    ShippedProfilesBuild(env);
    assert Keys(table)[3] == StartupKey;
    EveryIndexBuilds(table);
  }

  /** A table builds for every key once it builds for the key at every position. */
  lemma EveryIndexBuilds(table: Table)
    requires forall k :: 0 <= k < |table| ==> ConnectionStringFor(table, table[k].0).Success?
    ensures Builds(table)
  {
    forall key | key in Keys(table)
      ensures ConnectionStringFor(table, key).Success?
    {
      var k :| 0 <= k < |table| && Keys(table)[k] == key;
      assert table[k].0 == key;
    }
  }

  /** Every key of the table builds a connection string. */
  predicate Builds(table: Table) {
    forall key :: key in Keys(table) ==> ConnectionStringFor(table, key).Success?
  }

  /** `greet` */
  function Greet(name: string): (r: string)
    ensures |r| == |name| + 8 && StartsWith(r, "Hello, ") && r[7..|r| - 1] == name && r[|r| - 1] == '!'
  {
    "Hello, " + name + "!"
  }
}
