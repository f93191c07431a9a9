/**
 * The tools of the shared server module (shared_code/mcp_server.py) once
 * the tool dispatcher has called them: the environment-driven connection
 * string with its silent fallback, password redaction in diagnostics, the
 * guarded query tool, the connection test, the configuration dump, the BMI
 * resource selector and the greeting. The settings `get_sql_config` reads
 * from the environment, the database and the socket are inputs.
 */
module SharedServer {
  import opened Wrappers
  import opened Text
  import opened Odbc
  import opened QueryFilter
  import opened Rows
  import opened Driver

  /** The dict `get_sql_config` returns. */
  datatype SqlSettings = SqlSettings(
    server: string,
    database: string,
    username: string,
    password: string,
    driver: string,
    authentication: string,
    timeout: int,
    encrypt: string,
    trustServerCertificate: string)

  const Msi := "ActiveDirectoryMsi"
  const Integrated := "ActiveDirectoryIntegrated"

  /** The modes that sign in through the directory rather than with a password. */
  predicate DirectoryMode(auth: string) {
    auth == Msi || auth == Integrated || auth == Interactive
  }

  /** `base_params`: the segments every connection string starts with. */
  function BaseSegments(s: SqlSettings): seq<Segment> {
    [ Segment("DRIVER", "{" + s.driver + "}"),
      Segment("SERVER", s.server),
      Segment("DATABASE", s.database),
      Segment("Encrypt", s.encrypt),
      Segment("TrustServerCertificate", s.trustServerCertificate),
      Segment("Connection Timeout", IntToString(s.timeout)) ]
  }

  function PasswordSegments(s: SqlSettings): seq<Segment> {
    [Segment("UID", s.username), Segment("PWD", s.password)]
  }

  /** The branches of `get_connection_string`, as segments. */
  function ConnectionSegments(s: SqlSettings): (segs: seq<Segment>)
    ensures |segs| > 6 && segs[..6] == BaseSegments(s)
    ensures |segs| == 7 <==> DirectoryMode(s.authentication)
  {
    var auth := s.authentication;
    if auth == Msi then BaseSegments(s) + [Segment("Authentication", Msi)]
    else if auth == SqlPassword then BaseSegments(s) + PasswordSegments(s)
    else if auth == Integrated then BaseSegments(s) + [Segment("Authentication", Integrated)]
    else if auth == Interactive then BaseSegments(s) + [Segment("Authentication", Interactive)]
    else BaseSegments(s) + PasswordSegments(s)
  }

  /** `get_connection_string()` */
  function GetConnectionString(s: SqlSettings): string {
    Render(ConnectionSegments(s))
  }

  /** Every connection string starts with the base segments, in their order. */
  lemma BaseComesFirst(s: SqlSettings)
    ensures StartsWith(GetConnectionString(s), Render(BaseSegments(s)))
  {
    var base := BaseSegments(s);
    var rest := ConnectionSegments(s)[|base|..];
    assert ConnectionSegments(s) == base + rest;
    RenderAppend(base, rest);
  }

  /** An unknown mode is treated exactly as SqlPassword. */
  lemma UnknownModeFallsBack(s: SqlSettings)
    requires !DirectoryMode(s.authentication) && s.authentication != SqlPassword
    ensures GetConnectionString(s) == GetConnectionString(s.(authentication := SqlPassword))
  {
  }

  /** The settings that end up inside segment values hold no `;`. */
  predicate CleanSettings(s: SqlSettings) {
    ';' !in s.driver && ';' !in s.server && ';' !in s.database && ';' !in s.username
    && ';' !in s.password && ';' !in s.encrypt && ';' !in s.trustServerCertificate
  }

  lemma BaseClean(s: SqlSettings)
    requires CleanSettings(s)
    ensures AllClean(BaseSegments(s))
  {
    var d := "{" + s.driver + "}";
    assert ';' !in d by {
      assert forall i :: 0 <= i < |d| ==> d[i] == '{' || d[i] == '}' || d[i] in s.driver;
    }
    ShortKeysClean();
    LongKeysClean();
    var base := BaseSegments(s);
    assert Clean(base[0]) && Clean(base[1]) && Clean(base[2]);
    assert Clean(base[3]) && Clean(base[4]) && Clean(base[5]);
  }

  lemma ModesClean()
    ensures ';' !in Msi && ';' !in Integrated && ';' !in Interactive
  {
  }

  lemma AppendClean(a: seq<Segment>, b: seq<Segment>)
    requires AllClean(a) && AllClean(b)
    ensures AllClean(a + b)
  {
    assert forall k :: 0 <= k < |a + b| ==> (a + b)[k] == if k < |a| then a[k] else b[k - |a|];
  }

  /** The keys of a run of segments, in order. */
  function SegmentKeys(segs: seq<Segment>): seq<string> {
    seq(|segs|, k requires 0 <= k < |segs| => segs[k].key)
  }

  lemma HasKeyIff(segs: seq<Segment>, key: string)
    ensures HasKey(segs, key) <==> key in SegmentKeys(segs)
  {
    if key in SegmentKeys(segs) {
      var k :| 0 <= k < |segs| && SegmentKeys(segs)[k] == key;
      assert segs[k].key == key;
    }
    if HasKey(segs, key) {
      var k :| 0 <= k < |segs| && segs[k].key == key;
      assert SegmentKeys(segs)[k] == key;
    }
  }

  lemma BaseKeys(s: SqlSettings)
    ensures SegmentKeys(BaseSegments(s))
            == ["DRIVER", "SERVER", "DATABASE", "Encrypt", "TrustServerCertificate", "Connection Timeout"]
  {
  }

  lemma KeysAppend(a: seq<Segment>, b: seq<Segment>)
    ensures SegmentKeys(a + b) == SegmentKeys(a) + SegmentKeys(b)
  {
  }

  /** A directory mode writes the base segments and `Authentication=<mode>`. */
  lemma DirectorySegments(s: SqlSettings)
    requires DirectoryMode(s.authentication)
    ensures ConnectionSegments(s) == BaseSegments(s) + [Segment("Authentication", s.authentication)]
  {
  }

  /**
   * A directory mode reads back as the base segments plus exactly
   * `Authentication=<mode>`.
   */
  lemma DirectoryModeLayout(s: SqlSettings)
    requires DirectoryMode(s.authentication) && CleanSettings(s)
    ensures Parse(GetConnectionString(s))
            == Some(BaseSegments(s) + [Segment("Authentication", s.authentication)])
  {
    var auth := [Segment("Authentication", s.authentication)];
    DirectorySegments(s);
    BaseClean(s);
    ModesClean();
    LongKeysClean();
    assert Clean(auth[0]);
    AppendClean(BaseSegments(s), auth);
    ParseRender(BaseSegments(s) + auth);
  }

  /** A directory mode sends no user name and no password. */
  lemma DirectoryModeSendsNoPassword(s: SqlSettings)
    requires DirectoryMode(s.authentication)
    ensures !HasKey(ConnectionSegments(s), "UID") && !HasKey(ConnectionSegments(s), "PWD")
  {
    var auth := [Segment("Authentication", s.authentication)];
    DirectorySegments(s);
    BaseKeys(s);
    KeysAppend(BaseSegments(s), auth);
    assert SegmentKeys(auth) == ["Authentication"];
    HasKeyIff(ConnectionSegments(s), "UID");
    HasKeyIff(ConnectionSegments(s), "PWD");
  }

  /** SqlPassword and every unknown mode write the base segments, UID and PWD. */
  lemma PasswordSegmentsUsed(s: SqlSettings)
    requires !DirectoryMode(s.authentication)
    ensures ConnectionSegments(s) == BaseSegments(s) + PasswordSegments(s)
  {
  }

  /**
   * SqlPassword, and every mode the code does not know, reads back as the
   * base segments plus `UID=<user>` and `PWD=<password>`.
   */
  lemma PasswordModeLayout(s: SqlSettings)
    requires !DirectoryMode(s.authentication) && CleanSettings(s)
    ensures Parse(GetConnectionString(s)) == Some(BaseSegments(s) + PasswordSegments(s))
  {
    var segs := BaseSegments(s) + PasswordSegments(s);
    PasswordSegmentsUsed(s);
    BaseClean(s);
    AppendClean(BaseSegments(s), PasswordSegments(s));
    ParseRender(segs);
  }

  /** A password mode sends no Authentication segment. */
  lemma PasswordModeSendsNoAuthentication(s: SqlSettings)
    requires !DirectoryMode(s.authentication)
    ensures !HasKey(ConnectionSegments(s), "Authentication")
  {
    PasswordSegmentsUsed(s);
    BaseKeys(s);
    KeysAppend(BaseSegments(s), PasswordSegments(s));
    assert SegmentKeys(PasswordSegments(s)) == ["UID", "PWD"];
    HasKeyIff(ConnectionSegments(s), "Authentication");
  }

  /**
   * Nothing is escaped: a password holding `;key=value` is written exactly
   * as if the settings had a shorter password and one more segment.
   */
  lemma PasswordCanAddSegment(s: SqlSettings, p: string, key: string, value: string)
    requires !DirectoryMode(s.authentication)
    requires s.password == p + ";" + key + "=" + value
    ensures GetConnectionString(s)
            == Render(BaseSegments(s) + [Segment("UID", s.username), Segment("PWD", p), Segment(key, value)])
  {
    var base := BaseSegments(s);
    var uid, pwd, extra := Segment("UID", s.username), Segment("PWD", p), Segment(key, value);
    PasswordSegmentsUsed(s);
    RenderAppend(base, PasswordSegments(s));
    RenderAppend(base, [uid, pwd, extra]);
    RenderAppend([uid], [Segment("PWD", s.password)]);
    RenderAppend([uid], [pwd, extra]);
    RenderAppend([pwd], [extra]);
    RenderOne(uid);
    RenderOne(pwd);
    RenderOne(extra);
    RenderOne(Segment("PWD", s.password));
    assert PasswordSegments(s) == [uid] + [Segment("PWD", s.password)];
    assert [uid, pwd, extra] == [uid] + ([pwd] + [extra]);
  }

  /**
   * The diagnostic copy of a connection string: left alone when the
   * password is empty, otherwise every occurrence of the password is
   * replaced by the token.
   */
  function Redact(conn: string, password: string, token: string): (r: string)
    ensures password == "" ==> r == conn
    ensures password != "" && !Contains(conn, password) ==> r == conn
    ensures password != "" ==> r == Join(Split(conn, password), token)
  {
    if password == "" then conn
    else
      ReplaceIsJoinOfSplit(conn, password, token);
      Replace(conn, password, token)
  }

  /**
   * Redaction cuts the string at the left-to-right, non-overlapping
   * occurrences of the password and glues the pieces back with the token;
   * glued back with the password itself, they give the original string.
   */
  lemma RedactCutsAtPassword(conn: string, password: string, token: string)
    requires password != ""
    ensures Redact(conn, password, token) == Join(Split(conn, password), token)
    ensures Join(Split(conn, password), password) == conn
  {
    ReplaceIsJoinOfSplit(conn, password, token);
    JoinSplit(conn, password);
  }

  /**
   * When the token shares no character with the password, the password no
   * longer occurs after redaction.
   */
  lemma RedactHides(conn: string, password: string, token: string)
    requires password != "" && token != ""
    requires forall k :: 0 <= k < |password| ==> password[k] !in token
    ensures !Contains(Redact(conn, password, token), password)
  {
    ReplaceIsJoinOfSplit(conn, password, token);
    SplitPiecesFree(conn, password);
    JoinAvoids(Split(conn, password), token, password);
  }

  lemma FirstCharDiffers(s: string, p: string)
    requires |s| > 0 && |p| > 0 && s[0] != p[0]
    ensures !StartsWith(s, p)
  {
    if |p| <= |s| {
      assert s[..|p|][0] == s[0];
    }
  }

  /** The absence is not guaranteed: a password `**` survives redaction by `***`. */
  lemma RedactionCanLeavePassword()
    ensures Redact("PWD=**;", "**", "***") == "PWD=***;"
    ensures Contains(Redact("PWD=**;", "**", "***"), "**")
  {
    var s := "PWD=**;";
    FirstCharDiffers(s, "**");
    FirstCharDiffers(s[1..], "**");
    FirstCharDiffers(s[2..], "**");
    FirstCharDiffers(s[3..], "**");
    assert s[4..][..2] == "**";
    assert s[4..][2..] == ";";
    FirstCharDiffers(";", "**");
    assert Replace(";", "**", "***") == ";";
    assert Replace(s[4..], "**", "***") == "***;";
    var r := "PWD=***;";
    assert r[4..6] == "**";
    OccursAtContains(r, "**", 4);
  }

  datatype QueryReply =
    | Refused(error: string)
    | QueryOk(rowCount: nat, columns: seq<string>, data: seq<Record>, authenticationUsed: string)
    | QueryFailed(error: string, query: string, server: string, database: string,
                  authenticationType: string, connectionStringSample: string)

  /**
   * `query_sql_server`: the guard first; only a query that passes reaches
   * the database, as the caller wrote it; the rows are turned into records.
   */
  method QuerySqlServer(s: SqlSettings, db: Database, query: string) returns (r: QueryReply)
    ensures Check(query) != Allowed ==> r == Refused(RefusalMessage(Check(query)))
    ensures Check(query) == Allowed ==> !r.Refused?
    ensures r.QueryOk? ==>
              var fetch := db(GetConnectionString(s), query);
              && fetch.Fetched? && r.columns == fetch.columns
              && NormalizedRows(fetch.columns, fetch.rows) == Success(r.data)
              && r.rowCount == |r.data| == |fetch.rows|
              && r.authenticationUsed == s.authentication
    ensures Check(query) == Allowed && db(GetConnectionString(s), query).Fetched? ==>
              (r.QueryOk? <==> RowsFit(db(GetConnectionString(s), query).columns, db(GetConnectionString(s), query).rows))
    ensures r.QueryFailed? ==>
              && r.query == query && r.server == s.server && r.database == s.database
              && r.authenticationType == s.authentication
              && r.connectionStringSample == Redact(GetConnectionString(s), s.password, "***")
    ensures Check(query) == Allowed && db(GetConnectionString(s), query).FetchFailed? ==>
              r.QueryFailed? && r.error == db(GetConnectionString(s), query).message
    ensures Check(query) == Allowed && db(GetConnectionString(s), query).Fetched? ==>
              var fetch := db(GetConnectionString(s), query);
              !RowsFit(fetch.columns, fetch.rows) ==> r.QueryFailed? && r.error == "list index out of range"
  {
    var verdict := Check(query);
    if verdict != Allowed {
      return Refused(RefusalMessage(verdict));
    }
    var conn := GetConnectionString(s);
    var sample := Redact(conn, s.password, "***");
    var fetch := db(conn, query);
    match fetch {
      case FetchFailed(m) =>
        r := QueryFailed(m, query, s.server, s.database, s.authentication, sample);
      case Fetched(columns, rows) =>
        var data := NormalizeRows(columns, rows);
        NormalizedRowsShape(columns, rows);
        match data {
          case Failure(e) =>
            r := QueryFailed(e.Str(), query, s.server, s.database, s.authentication, sample);
          case Success(records) =>
            r := QueryOk(|records|, columns, records, s.authentication);
        }
    }
  }

  datatype ConnectionReply =
    | Connected(serverVersion: string, databaseName: string, server: string, database: string,
                authenticationType: string)
    | NotConnected(error: string, server: string, database: string, authenticationType: string,
                   connectionStringSample: string)

  /**
   * `test_sql_connection`: the probe runs over the settings' connection
   * string; a failure shows that string with the password masked.
   */
  function TestSqlConnection(s: SqlSettings, probe: string -> Probe): (r: ConnectionReply)
    ensures var p := probe(GetConnectionString(s));
            && (r.Connected? <==> p.ProbeRow?)
            && (r.Connected? && p.row.None? ==> r.serverVersion == "Unknown" && r.databaseName == "Unknown")
            && (r.Connected? && p.row.Some? ==>
                  r.serverVersion == p.row.value.0 && r.databaseName == p.row.value.1)
            && (r.NotConnected? ==> r.error == p.message)
    ensures r.NotConnected? ==>
              r.connectionStringSample == Redact(GetConnectionString(s), s.password, "***")
    ensures r.server == s.server && r.database == s.database && r.authenticationType == s.authentication
  {
    var conn := GetConnectionString(s);
    match probe(conn)
    case ProbeFailed(m) =>
      NotConnected(m, s.server, s.database, s.authentication, Redact(conn, s.password, "***"))
    case ProbeRow(row) =>
      match row
      case None => Connected("Unknown", "Unknown", s.server, s.database, s.authentication)
      case Some(values) => Connected(values.0, values.1, s.server, s.database, s.authentication)
  }

  /**
   * For a password with no `*` in it, the sample a failed query or a failed
   * connection test shows does not contain the password.
   */
  lemma SampleHidesPassword(s: SqlSettings)
    requires s.password != "" && '*' !in s.password
    ensures !Contains(Redact(GetConnectionString(s), s.password, "***"), s.password)
  {
    RedactHides(GetConnectionString(s), s.password, "***");
  }

  datatype DebugReport = DebugReport(
    server: string,
    database: string,
    authenticationType: string,
    driver: string,
    timeout: int,
    encrypt: string,
    trustServerCertificate: string,
    connectionString: string)

  /** `get_sql_config_debug`, without the environment listing. */
  function GetSqlConfigDebug(s: SqlSettings): (r: DebugReport)
    ensures r.server == s.server && r.database == s.database && r.authenticationType == s.authentication
    ensures r.driver == s.driver && r.timeout == s.timeout
    ensures r.encrypt == s.encrypt && r.trustServerCertificate == s.trustServerCertificate
    ensures r.connectionString == Redact(GetConnectionString(s), s.password, "***REDACTED***")
    ensures s.password == "" ==> r.connectionString == GetConnectionString(s)
  {
    DebugReport(s.server, s.database, s.authentication, s.driver, s.timeout, s.encrypt,
                s.trustServerCertificate, Redact(GetConnectionString(s), s.password, "***REDACTED***"))
  }

  /** `get_sql_config_debug` never shows a password that shares no character with its token. */
  lemma DebugHidesPassword(s: SqlSettings)
    requires s.password != ""
    requires forall k :: 0 <= k < |s.password| ==> s.password[k] !in "***REDACTED***"
    ensures !Contains(GetSqlConfigDebug(s).connectionString, s.password)
  {
    RedactHides(GetConnectionString(s), s.password, "***REDACTED***");
  }

  /** The four static BMI resources. */
  datatype ResourceKind = Categories | HealthRisks | CalculationGuide | HealthyWeightTips

  /** The `resource_type` that selects a resource on its own. */
  function Name(k: ResourceKind): string {
    match k
    case Categories => "categories"
    case HealthRisks => "health-risks"
    case CalculationGuide => "calculation-guide"
    case HealthyWeightTips => "healthy-weight-tips"
  }

  function Uri(k: ResourceKind): string {
    "bmi://" + Name(k)
  }

  const Kinds: seq<ResourceKind> := [Categories, HealthRisks, CalculationGuide, HealthyWeightTips]

  const ValidTypes: seq<string> := ["all", "categories", "health-risks", "calculation-guide", "healthy-weight-tips"]

  /** The URIs of all resources, in the order the tool lists them. */
  const ResourceUris: seq<string> :=
    [Uri(Categories), Uri(HealthRisks), Uri(CalculationGuide), Uri(HealthyWeightTips)]

  /**
   * What `get_bmi_resources` answers: one resource, all of them with their
   * URIs, or the error listing the valid types and the available URIs.
   * The resource texts themselves are static and not modelled.
   */
  datatype ResourceReply =
    | Single(kind: ResourceKind)
    | Everything(kinds: seq<ResourceKind>, resourceUris: seq<string>)
    | InvalidType(error: string, validTypes: seq<string>, availableResources: seq<string>)

  /** `get_bmi_resources` */
  function GetBmiResources(resourceType: string): (r: ResourceReply)
    ensures r.Single? ==> Name(r.kind) == resourceType
    ensures r.Everything? <==> resourceType == "all"
    ensures r.Everything? ==> r.kinds == Kinds && r.resourceUris == ResourceUris
    ensures r.InvalidType? <==> resourceType !in ValidTypes
    ensures r.InvalidType? ==>
              && r.error == "Invalid resource type: " + resourceType
              && r.validTypes == ValidTypes && r.availableResources == ResourceUris
  {
    if resourceType == "categories" then Single(Categories)
    else if resourceType == "health-risks" then Single(HealthRisks)
    else if resourceType == "calculation-guide" then Single(CalculationGuide)
    else if resourceType == "healthy-weight-tips" then Single(HealthyWeightTips)
    else if resourceType == "all" then Everything(Kinds, ResourceUris)
    else InvalidType("Invalid resource type: " + resourceType, ValidTypes, ResourceUris)
  }

  /** Position of a resource in the tool's lists. */
  function Index(k: ResourceKind): (i: nat)
    ensures i < |Kinds| && Kinds[i] == k
  {
    match k
    case Categories => 0
    case HealthRisks => 1
    case CalculationGuide => 2
    case HealthyWeightTips => 3
  }

  /** Each resource is reached by its own name and listed under its URI. */
  lemma SelectByName(k: ResourceKind)
    ensures GetBmiResources(Name(k)) == Single(k)
    ensures ValidTypes[Index(k) + 1] == Name(k) && ResourceUris[Index(k)] == Uri(k)
  {
  }

  /** The valid types are "all" and the names of the resources, in order. */
  lemma ValidTypesAreNames()
    ensures ValidTypes == ["all"] + seq(|Kinds|, i requires 0 <= i < |Kinds| => Name(Kinds[i]))
  {
  }

  /** `greet` */
  function Greet(name: string): (r: string)
    ensures StartsWith(r, "Hello, " + name + "!")
    ensures r[|"Hello, " + name + "!"|..] == " Greetings from Azure Functions with MCP Server integration!"
  {
    "Hello, " + name + "!" + " Greetings from Azure Functions with MCP Server integration!"
  }
}
