/**
 * The SQL Server configuration table and its connection-string builder
 * (sql_config.py). The table is fixed at start-up; the user name of the
 * two Azure profiles and the password of the two local ones come from the
 * environment, which is passed in.
 */
module SqlConfig {
  import opened Wrappers
  import opened Text
  import opened Odbc

  /** The process environment, read with `os.environ.get(name, default)`. */
  type Environment = map<string, string>

  function EnvGet(env: Environment, name: string, default: string): string {
    if name in env then env[name] else default
  }

  /** One entry of the table; `password` is absent from the Azure profiles. */
  datatype Profile = Profile(
    name: string,
    server: string,
    database: string,
    username: string,
    password: Option<string>,
    driver: string,
    authentication: string,
    encrypt: string,
    trustServerCertificate: string,
    timeout: int,
    description: string)

  /** An insertion-ordered dictionary from configuration key to profile. */
  type Table = seq<(string, Profile)>

  const Driver18 := "ODBC Driver 18 for SQL Server"
  const AzureServer := "upskilling-dbserver.database.windows.net"

  /** The keys of `SQL_CONFIGURATIONS`, in declaration order. */
  const ShippedKeys := ["azure_production", "azure_relaxed", "local_test", "docker_test"]

  /** `SQL_CONFIGURATIONS`, in its declaration order: four profiles under four different keys. */
  function Configurations(env: Environment): (t: Table)
    ensures Keys(t) == ShippedKeys && DistinctKeys(t)
  {
    [ ("azure_production",
       Profile("Azure Production", AzureServer, "TestDB", EnvGet(env, "SQL_USERNAME", ""), None,
               Driver18, Interactive, "yes", "no", 30,
               "Production Azure SQL Database with AD Authentication")),
      ("azure_relaxed",
       Profile("Azure Production (Relaxed Security)", AzureServer, "TestDB",
               EnvGet(env, "SQL_USERNAME", ""), None, Driver18, Interactive, "yes", "yes", 60,
               "Same as production but with relaxed certificate validation")),
      ("local_test",
       Profile("Local Test Server", "localhost", "TestDB", "sa", Some(EnvGet(env, "SQL_PASSWORD", "")),
               Driver18, SqlPassword, "yes", "yes", 30, "Local SQL Server instance for testing")),
      ("docker_test",
       Profile("Docker SQL Server", "127.0.0.1,1433", "master", "sa", Some(EnvGet(env, "SQL_PASSWORD", "")),
               Driver18, SqlPassword, "yes", "yes", 60, "SQL Server running in Docker container"))
    ]
  }

  predicate DistinctKeys(table: Table) {
    forall i, j :: 0 <= i < j < |table| ==> table[i].0 != table[j].0
  }

  /** `table[key]`, or `None` when the key is absent. */
  function Find(table: Table, key: string): (r: Option<Profile>)
    ensures r.Some? <==> key in Keys(table)
    ensures r.Some? ==> (key, r.value) in table
  {
    if |table| == 0 then None
    else if table[0].0 == key then assert Keys(table)[0] == key; Some(table[0].1)
    else
      assert Keys(table) == [table[0].0] + Keys(table[1..]);
      Find(table[1..], key)
  }

  /** The segments every profile starts with, in order. */
  function ProfileHead(p: Profile): seq<Segment> {
    [ Segment("DRIVER", "{" + p.driver + "}"),
      Segment("SERVER", p.server),
      Segment("DATABASE", p.database),
      Segment("UID", p.username) ]
  }

  /** The segments every profile ends with, in order. */
  function ProfileTail(p: Profile): seq<Segment> {
    [ Segment("Encrypt", p.encrypt),
      Segment("TrustServerCertificate", p.trustServerCertificate),
      Segment("Connection Timeout", IntToString(p.timeout)) ]
  }

  /** The eight f-string lines of either branch, one segment each. */
  function Layout(p: Profile, signIn: Segment): seq<Segment> {
    ProfileHead(p) + [signIn] + ProfileTail(p)
  }

  /**
   * `get_connection_string_for_config` once the profile is found: interactive
   * directory sign-in names the mode, password sign-in adds `PWD`, any other
   * mode is refused.
   */
  function BuildProfile(p: Profile): (r: Result<string, PyError>)
    ensures r.Success? <==>
              p.authentication == Interactive || (p.authentication == SqlPassword && p.password.Some?)
    ensures p.authentication != Interactive && p.authentication != SqlPassword ==>
              r == Failure(ValueError("Unsupported authentication method: " + p.authentication))
  {
    if p.authentication == Interactive then
      Success(Render(Layout(p, Segment("Authentication", p.authentication))))
    else if p.authentication == SqlPassword then
      match p.password
      case None => Failure(KeyError("password"))
      case Some(pwd) => Success(Render(Layout(p, Segment("PWD", pwd))))
    else
      Failure(ValueError("Unsupported authentication method: " + p.authentication))
  }

  /** The error `get_connection_string_for_config` raises for an unknown name. */
  function NotFoundMessage(name: string, table: Table): string {
    "Configuration '" + name + "' not found. Available: " + ListRepr(Keys(table))
  }

  /** `get_connection_string_for_config(name)` over a given table. */
  function ConnectionStringFor(table: Table, name: string): (r: Result<string, PyError>)
    ensures name !in Keys(table) ==> r == Failure(ValueError(NotFoundMessage(name, table)))
    ensures name in Keys(table) ==> r == BuildProfile(Find(table, name).value)
  {
    match Find(table, name)
    case None => Failure(ValueError(NotFoundMessage(name, table)))
    case Some(p) => BuildProfile(p)
  }

  /** `get_connection_string_for_config(name)` over the shipped table. */
  function GetConnectionStringForConfig(env: Environment, name: string): (r: Result<string, PyError>)
    ensures r.Success? <==> name in ShippedKeys
    ensures name in ShippedKeys ==> r == BuildProfile(Find(Configurations(env), name).value)
    ensures name !in ShippedKeys ==> r == Failure(ValueError(NotFoundMessage(name, Configurations(env))))
  {
    if name in ShippedKeys then
      ShippedKeyBuilds(env, name);
      ConnectionStringFor(Configurations(env), name)
    else
      ConnectionStringFor(Configurations(env), name)
  }

  lemma ShippedKeyBuilds(env: Environment, name: string)
    requires name in ShippedKeys
    ensures ConnectionStringFor(Configurations(env), name).Success?
  {
    var table := Configurations(env);
    ShippedProfilesBuild(env);
    var k :| 0 <= k < |table| && Keys(table)[k] == name;
    assert table[k].0 == name;
  }

  /** The profile fields that end up inside segment values hold no `;`. */
  predicate CleanProfile(p: Profile) {
    ';' !in p.driver && ';' !in p.server && ';' !in p.database && ';' !in p.username
    && ';' !in p.encrypt && ';' !in p.trustServerCertificate
    && (p.password.Some? ==> ';' !in p.password.value)
  }

  lemma CleanHead(p: Profile)
    requires CleanProfile(p)
    ensures AllClean(ProfileHead(p))
  {
    var d := "{" + p.driver + "}";
    assert ';' !in d by {
      assert forall k :: 0 <= k < |d| ==> d[k] == '{' || d[k] == '}' || d[k] in p.driver;
    }
    ShortKeysClean();
    var h := ProfileHead(p);
    assert Clean(h[0]) && Clean(h[1]) && Clean(h[2]) && Clean(h[3]);
  }

  lemma CleanTail(p: Profile)
    requires CleanProfile(p)
    ensures AllClean(ProfileTail(p))
  {
    ShortKeysClean();
    LongKeysClean();
    var tl := ProfileTail(p);
    assert Clean(tl[0]) && Clean(tl[1]) && Clean(tl[2]);
  }

  lemma InteractiveClean()
    ensures ';' !in Interactive
  {
  }

  lemma CleanLayout(p: Profile, signIn: Segment)
    requires CleanProfile(p) && Clean(signIn)
    ensures AllClean(Layout(p, signIn))
  {
    CleanHead(p);
    CleanTail(p);
    var h, tl := ProfileHead(p), ProfileTail(p);
    var segs := Layout(p, signIn);
    assert forall k :: 0 <= k < |segs| ==> segs[k] == (if k < 4 then h[k] else if k == 4 then signIn else tl[k - 5]);
  }

  /** A layout of clean fields reads back as itself. */
  lemma LayoutReadsBack(p: Profile, signIn: Segment)
    requires CleanProfile(p) && Clean(signIn)
    ensures Parse(Render(Layout(p, signIn))) == Some(Layout(p, signIn))
  {
    CleanLayout(p, signIn);
    ParseRender(Layout(p, signIn));
  }

  /** The keys every layout carries besides its sign-in segment's. */
  const LayoutFixedKeys := ["DRIVER", "SERVER", "DATABASE", "UID", "Encrypt", "TrustServerCertificate", "Connection Timeout"]

  /** Which sign-in keys are among the fixed ones. */
  lemma FixedKeysHold()
    ensures "UID" in LayoutFixedKeys
    ensures "PWD" !in LayoutFixedKeys && "Authentication" !in LayoutFixedKeys
  {
    assert LayoutFixedKeys[3] == "UID";
  }

  /** A layout carries a key exactly when its sign-in segment or its head or tail does. */
  lemma LayoutKeys(p: Profile, signIn: Segment, key: string)
    ensures HasKey(Layout(p, signIn), key) <==> key == signIn.key || key in LayoutFixedKeys
  {
    var segs := Layout(p, signIn);
    assert segs[4] == signIn;
    assert forall k :: 0 <= k < 8 && k != 4 ==> segs[k].key == LayoutFixedKeys[if k < 4 then k else k - 1];
    if key in LayoutFixedKeys {
      var i :| 0 <= i < 7 && LayoutFixedKeys[i] == key;
      assert segs[if i < 4 then i else i + 1].key == key;
    }
  }

  /**
   * An interactive-directory profile is written as its head (DRIVER with the
   * driver in braces, SERVER, DATABASE, UID), then `Authentication=<mode>`,
   * then its tail (Encrypt, TrustServerCertificate, Connection Timeout); when
   * its fields hold no `;` it reads back as exactly those segments, with a
   * UID and no PWD among them.
   */
  lemma InteractiveProfileLayout(p: Profile)
    requires p.authentication == Interactive
    ensures BuildProfile(p).Success?
    ensures CleanProfile(p) ==>
              var segs := Parse(BuildProfile(p).value);
              && segs == Some(ProfileHead(p) + [Segment("Authentication", Interactive)] + ProfileTail(p))
              && HasKey(segs.value, "UID") && !HasKey(segs.value, "PWD")
  {
    if CleanProfile(p) {
      var signIn := Segment("Authentication", Interactive);
      InteractiveClean();
      LongKeysClean();
      assert BuildProfile(p).value == Render(Layout(p, signIn));
      LayoutReadsBack(p, signIn);
      FixedKeysHold();
      LayoutKeys(p, signIn, "UID");
      LayoutKeys(p, signIn, "PWD");
    }
  }

  /**
   * A password profile is written with the same head and tail around
   * `PWD=<password>`, and reads back with no Authentication segment; without
   * a password entry it fails with the missing key.
   */
  lemma PasswordProfileLayout(p: Profile)
    requires p.authentication == SqlPassword
    ensures p.password.None? ==> BuildProfile(p) == Failure(KeyError("password"))
    ensures p.password.Some? && CleanProfile(p) ==>
              var segs := Parse(BuildProfile(p).value);
              && segs == Some(ProfileHead(p) + [Segment("PWD", p.password.value)] + ProfileTail(p))
              && HasKey(segs.value, "PWD") && !HasKey(segs.value, "Authentication")
  {
    if p.password.Some? && CleanProfile(p) {
      var signIn := Segment("PWD", p.password.value);
      assert BuildProfile(p).value == Render(Layout(p, signIn));
      ShortKeysClean();
      LayoutReadsBack(p, signIn);
      FixedKeysHold();
      LayoutKeys(p, signIn, "PWD");
      LayoutKeys(p, signIn, "Authentication");
    }
  }

  /**
   * An unknown configuration name is refused with a ValueError that quotes
   * the name and lists every available key.
   */
  lemma UnknownConfigurationRefused(table: Table, name: string)
    requires name !in Keys(table)
    ensures ConnectionStringFor(table, name).Failure?
    ensures var e := ConnectionStringFor(table, name).error;
            && e.ValueError?
            && StartsWith(e.message, "Configuration '" + name + "' not found.")
            && forall k :: 0 <= k < |table| ==> Contains(e.message, Repr(table[k].0))
  {
    var msg := NotFoundMessage(name, table);
    var prefix := "Configuration '" + name + "' not found. Available: ";
    assert msg[..|"Configuration '" + name + "' not found."|]
        == "Configuration '" + name + "' not found.";
    forall k | 0 <= k < |table|
      ensures Contains(msg, Repr(table[k].0))
    {
      ListReprMentions(Keys(table), k);
      ContainsRight(prefix, ListRepr(Keys(table)), Repr(table[k].0));
    }
  }

  /** With distinct keys, looking a table's own key up finds its own profile. */
  lemma {:induction false} FindOwnKey(table: Table, k: int)
    requires DistinctKeys(table) && 0 <= k < |table|
    ensures Find(table, table[k].0) == Some(table[k].1)
  {
    if k > 0 {
      assert table[0].0 != table[k].0;
      FindOwnKey(table[1..], k - 1);
    }
  }

  /** Every profile of the shipped table builds a connection string. */
  lemma ShippedProfilesBuild(env: Environment)
    ensures var table := Configurations(env);
            && forall k :: 0 <= k < |table| ==> ConnectionStringFor(table, table[k].0).Success?
  {
    var table := Configurations(env);
    forall k | 0 <= k < |table|
      ensures ConnectionStringFor(table, table[k].0).Success?
    {
      FindOwnKey(table, k);
    }
  }
}
