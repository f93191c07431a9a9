# MCPServerDemo tool logic in Dafny

This project models the logic that the tools of the MCPServerDemo servers run
before and after they reach SQL Server. It covers three files:

- `shared_code/mcp_server.py`: the Azure Functions server;
- `bmi_server.py`: the single-machine BMI and SQL server;
- `sql_config.py`: the table of SQL Server profiles.

The modelled logic is:

- the read-only query guard: trim, upper-case, require `SELECT`, refuse any deny-listed word anywhere;
- the three connection-string builders, as runs of `key=value;` segments;
- password redaction in diagnostics;
- the configuration store with its mutable current key;
- turning fetched rows into column-to-value records;
- shaping of table lists and table schemas;
- the BMI resource selector;
- the BMI category chain on exact reals;
- the two `calculate_bmi` guards.

The database, the socket and the environment are inputs: a fetch result, a probe result, a connect outcome, a settings record.

Modules, one per file:

| module | models |
|---|---|
| `Wrappers` | `Option`, `Result`, and the three Python exceptions the code raises |
| `Text` | `str.strip` (Python's whitespace set), `str.upper` on ASCII, `startswith`, the `in` substring test, `str.replace` with its split/join partner, `str(int)`, `repr` of a list of plain strings |
| `Odbc` | connection strings as `key=value;` segments; `Parse` reads a string back and is proved inverse to `Render` both ways |
| `SqlConfig` | `SQL_CONFIGURATIONS` and `get_connection_string_for_config` |
| `QueryFilter` | the guard both servers run on a query |
| `Rows` | values as the driver returns them, a dict as an insertion-ordered sequence, and the nested row loop |
| `Driver` | what a database, a connection probe and a catalog query give back |
| `Network` | the connectivity report of `test_network_connectivity` |
| `Bmi` | the category chain, the advice `calculate_bmi` attaches, the bare guard of the single-machine server |
| `SharedServer` | the shared server's tools |
| `BmiServer` | the single-machine server: a `ConfigurationStore` class whose `current` field is `CURRENT_SQL_CONFIG` |

Behaviour worth knowing:

- The deny-list error does not name the keyword it found. Both servers answer with one fixed message (shared_code/mcp_server.py:680, bmi_server.py:181).
- In `bmi_server.py`, `SQL_CONFIG` is read once at start-up from the `docker_test` profile and a switch never refreshes it. `test_sql_connection` therefore connects through the current profile but reports the start-up profile's server and database. `test_network_connectivity` always dials the start-up profile's server (bmi_server.py:19, 86, 141-142).
- `calculate_bmi` of the shared server gives Obesity Class II and III results the Class I description. The key `"obese"` is rewritten to `"obese_class_1"` before the lookup (shared_code/mcp_server.py:438). `Bmi.HeavierClassesReadAsClassI` states this.

## Model

| member | source | states |
|---|---|---|
| Text.Upper | shared_code/mcp_server.py:672 | `upper()` keeps the length; with Text.UpperLetters, no ASCII lower-case letter is left and every other character is kept |
| Text.UpperLetters | bmi_server.py:173 | after `upper()` each ASCII lower-case letter has become its upper-case letter (32 code points lower), none remains, and every other character is unchanged |
| Text.Contains | shared_code/mcp_server.py:677-679 | `w in s`: a word that occurs is no longer than the text (with Text.ContainsIff, it occurs exactly when some index starts it) |
| Text.LeadingSpaces | shared_code/mcp_server.py:672 | the whitespace `strip` removes in front stops at a non-space character or at the end |
| Text.LeadingAreSpaces | shared_code/mcp_server.py:672 | everything removed in front is whitespace |
| Text.TrailingAreSpaces | shared_code/mcp_server.py:672 | everything removed at the back is whitespace |
| Text.Strip | shared_code/mcp_server.py:672 | `strip()` is a slice of the query that starts after the leading whitespace and neither starts nor ends with whitespace |
| Text.StripKeeps | shared_code/mcp_server.py:672 | `strip()` keeps every non-whitespace character of the query |
| Text.Replace | shared_code/mcp_server.py:649 | `replace` with a non-empty pattern that does not occur leaves the text unchanged |
| Text.ReplaceIsJoinOfSplit | shared_code/mcp_server.py:649 | `replace(p, t)` cuts at the left-to-right, non-overlapping occurrences of `p` and glues the pieces with `t` |
| Text.JoinSplit | shared_code/mcp_server.py:649 | the pieces glued back with the pattern give the original string |
| Text.SplitPiecesFree | shared_code/mcp_server.py:649 | no piece between two occurrences contains the pattern |
| Text.IntToString | sql_config.py:85 | `str(timeout)` is non-empty, made of digits and a minus sign, and holds no `;`; the sign comes first and only for a negative number, and no leading zero follows it unless the number is 0 |
| Text.NatToStringValue | sql_config.py:85 | the digits of `str(n)` for a non-negative `n` spell `n` |
| Text.IntToStringValue | shared_code/mcp_server.py:310 | `str(i)` reads back as `i`, sign included |
| Text.ListReprMentions | sql_config.py:71 | the printed key list names every key, quoted |
| Odbc.IndexOf | sql_config.py:77-97 | part of the reader used to read those strings back, not a model of these lines: the first occurrence of a delimiter, or `None` exactly when it is absent |
| Odbc.RenderAppend | sql_config.py:77-97 | the text of a run of segments is the text of each part in turn |
| Odbc.Cut | sql_config.py:77-97 | part of the reader used to read those strings back, not a model of these lines: a cut splits a string into its first `key=value;` segment and the rest |
| Odbc.ParseRender | sql_config.py:77-97 | segments with no `;` anywhere and no `=` in the key read back exactly as written |
| Odbc.RenderParse | sql_config.py:77-97 | whatever parses renders back to the same text |
| SqlConfig.Configurations | sql_config.py:10-64 | `SQL_CONFIGURATIONS` holds the four keys `azure_production`, `azure_relaxed`, `local_test`, `docker_test`, in that order and all different |
| SqlConfig.Find | sql_config.py:69-73 | a key is found exactly when it is in the table, and with its own profile |
| SqlConfig.FindOwnKey | sql_config.py:73 | with distinct keys, every key of the table finds its own profile |
| SqlConfig.BuildProfile | sql_config.py:76-100 | building succeeds exactly for ActiveDirectoryInteractive, or for SqlPassword with a password entry; any other mode raises "Unsupported authentication method: <mode>" |
| SqlConfig.ConnectionStringFor | sql_config.py:67-102 | a name missing from the table raises ValueError with the not-found message; a present name gives that profile's build |
| SqlConfig.GetConnectionStringForConfig | sql_config.py:67-102 | over the shipped table, a string is built exactly for the four shipped keys, and it is that profile's build; any other name raises the not-found ValueError |
| SqlConfig.LayoutKeys | sql_config.py:77-97 | a layout carries a key exactly when its sign-in segment or one of the seven fixed segments does |
| SqlConfig.InteractiveProfileLayout | sql_config.py:76-86 | when no field holds `;`, an interactive profile builds and reads back as DRIVER={driver}, SERVER, DATABASE, UID, Authentication=ActiveDirectoryInteractive, Encrypt, TrustServerCertificate, Connection Timeout, with UID and without PWD |
| SqlConfig.PasswordProfileLayout | sql_config.py:87-97 | when no field holds `;`, a password profile reads back with `PWD=<password>` in the fifth place and no Authentication segment; without a password entry it raises KeyError('password') |
| SqlConfig.UnknownConfigurationRefused | sql_config.py:69-71 | an unknown name raises a ValueError that starts "Configuration '<name>' not found." and names every available key |
| SqlConfig.ShippedProfilesBuild | sql_config.py:10-64 | every key of the shipped table builds a connection string |
| QueryFilter.Check | shared_code/mcp_server.py:672-680 | a query is refused as not-SELECT exactly when its trimmed, upper-cased text does not start with SELECT; it is allowed exactly when that text starts with SELECT and contains no deny-listed word |
| QueryFilter.NormalizedIsSlice | shared_code/mcp_server.py:672 | `query.strip().upper()` is the slice of the upper-cased query between the leading and the trailing whitespace |
| QueryFilter.StripUpper | shared_code/mcp_server.py:672 | trimming and upper-casing commute |
| QueryFilter.CaseInsensitive | bmi_server.py:173 | queries equal up to case get the same verdict |
| QueryFilter.ContainsTrimmed | shared_code/mcp_server.py:672-679 | a word that starts and ends with a non-space character occurs in the trimmed text exactly when it occurs in the untrimmed text |
| QueryFilter.DangerousOnRawText | bmi_server.py:178-180 | the deny-list check on the trimmed text is the same check on the whole upper-cased query |
| QueryFilter.AllowedSpellsNoKeyword | shared_code/mcp_server.py:677-680 | an allowed query spells no deny-listed word anywhere, in any case |
| QueryFilter.ColumnNamedUpdatedIsRefused | shared_code/mcp_server.py:677-680 | `SELECT updated_at FROM t` is refused as dangerous: a keyword inside an identifier is enough |
| QueryFilter.LowerCaseSelectIsAllowed | shared_code/mcp_server.py:672-674 | `  select * from t ` is allowed |
| QueryFilter.DeleteIsNotSelect | bmi_server.py:173-175 | `delete from users` is refused as not a SELECT, before the deny list is consulted |
| Rows.Normalize | shared_code/mcp_server.py:708-715 | `None`, int, float, str and bool pass through unchanged; any other value becomes its text |
| Rows.Get | shared_code/mcp_server.py:710-715 | a key is looked up exactly when it is present |
| Rows.Put | shared_code/mcp_server.py:710-715 | after `d[k] = v`, `k` maps to `v`; an existing key keeps its place; a new key goes last |
| Rows.PutKeepsOthers | shared_code/mcp_server.py:710-715 | assigning one key leaves every other key's value as it was |
| Rows.PutKeepsUnique | shared_code/mcp_server.py:706-715 | a record never holds a key twice |
| Rows.RowToRecord | shared_code/mcp_server.py:706-715 | the inner loop builds the row's record, or raises IndexError at the first value past the last column |
| Rows.NormalizeRows | bmi_server.py:195-210 | the outer loop yields one record per row, in order, or the IndexError when some row is longer than the column list |
| Rows.RecordsAt | shared_code/mcp_server.py:704-716 | the n-th record is the n-th row's |
| Rows.RecordOfLookup | shared_code/mcp_server.py:707-715 | each value is found under its column; when a column name repeats, the last value under it wins |
| Rows.RecordOfMissing | shared_code/mcp_server.py:707-715 | a name that labels none of the row's values is absent from its record |
| Rows.RecordOfDistinct | shared_code/mcp_server.py:707-715 | with distinct column names, a record is the columns zipped with the normalised values |
| Rows.NormalizedRows | shared_code/mcp_server.py:701-716 | the row loop succeeds exactly when every row fits its columns, with one record per row; otherwise it raises IndexError("list index out of range") |
| Rows.NormalizedRowsShape | shared_code/mcp_server.py:701-727 | the loop succeeds exactly when every row fits its columns, and then gives one record per row with each value under its column |
| Network.Connectivity | shared_code/mcp_server.py:552-591 | the report names the server and port 1433; it is reachable exactly when the connect code is 0, with a time and no error; a non-zero code or an exception fills in the error text |
| Bmi.Classify | shared_code/mcp_server.py:391-414 | the category's band holds the BMI, with cut points at 18.5, 25, 30, 35 and 40 |
| Bmi.ClassifyUnique | shared_code/mcp_server.py:391-414 | the bands do not overlap: a BMI lies only in its own category's band |
| Bmi.ClassifyMonotone | shared_code/mcp_server.py:391-414 | a heavier BMI never falls in a lighter category |
| Bmi.DescriptionIn | shared_code/mcp_server.py:438 | a present key gets the description of its first entry; a key missing from the table gets the empty description |
| Bmi.RisksIn | shared_code/mcp_server.py:417 | a present key gets the risk list of its first entry; a key missing from the table gets no risks |
| Bmi.Interpretation | shared_code/mcp_server.py:438 | the three obesity classes get the `obese_class_1` description; every other category gets its own key's |
| Bmi.ConsultHealthcare | shared_code/mcp_server.py:441 | consulting is advised exactly when the category is neither normal nor overweight |
| Bmi.Assess | shared_code/mcp_server.py:391-441 | the report carries the BMI, its category label and range, its risk list, the interpretation of its category, the consult advice, and the weight and height it was given |
| Bmi.CalculateBmi | shared_code/mcp_server.py:375-388 | a non-positive height or weight gives the error report and no category; otherwise the report of weight / height² |
| Bmi.EveryCategoryHasRisks | shared_code/mcp_server.py:82-109 | every category's key has a non-empty risk list |
| Bmi.EveryCategoryInterpreted | shared_code/mcp_server.py:73-80 | every category gets a non-empty interpretation |
| Bmi.InterpretationKey | shared_code/mcp_server.py:438 | the three obesity classes all look up `obese_class_1`; the other keys are unchanged |
| Bmi.HeavierClassesReadAsClassI | shared_code/mcp_server.py:438 | Class II and III results carry the Class I description, though the table has one of their own |
| Bmi.GuideExample | shared_code/mcp_server.py:177-178 | 70 kg at 1.75 m is classed as normal weight |
| Bmi.CalculateBmiBare | bmi_server.py:73-75 | a non-positive height raises ValueError; otherwise the result times height² is the weight |
| Bmi.BareAcceptsNonPositiveWeight | bmi_server.py:73-75 | a non-positive weight passes the bare guard, while the shared tool refuses it |
| SharedServer.ConnectionSegments | shared_code/mcp_server.py:284-348 | every branch writes the six base segments first; it writes exactly one more segment in the three directory modes, and two otherwise |
| SharedServer.BaseComesFirst | shared_code/mcp_server.py:304-311 | every connection string starts with DRIVER={d};SERVER;DATABASE;Encrypt;TrustServerCertificate;Connection Timeout, in that order |
| SharedServer.DirectorySegments | shared_code/mcp_server.py:313-337 | the three directory modes write the base segments plus exactly `Authentication=<mode>` |
| SharedServer.DirectoryModeLayout | shared_code/mcp_server.py:313-337 | with clean settings, a directory-mode string reads back as the base plus `Authentication=<mode>` |
| SharedServer.DirectoryModeSendsNoPassword | shared_code/mcp_server.py:313-337 | a directory mode sends no UID and no PWD segment |
| SharedServer.PasswordSegmentsUsed | shared_code/mcp_server.py:319-346 | SqlPassword and every unknown mode write the base plus UID and PWD |
| SharedServer.PasswordModeLayout | shared_code/mcp_server.py:319-346 | with clean settings, such a string reads back as the base plus `UID=<user>` and `PWD=<password>` |
| SharedServer.PasswordModeSendsNoAuthentication | shared_code/mcp_server.py:319-346 | a password mode sends no Authentication segment |
| SharedServer.UnknownModeFallsBack | shared_code/mcp_server.py:338-346 | an unknown mode gives the same string as SqlPassword |
| SharedServer.PasswordCanAddSegment | shared_code/mcp_server.py:323-324 | nothing is escaped: a password holding `;key=value` is written as a shorter password plus one more segment |
| SharedServer.Redact | shared_code/mcp_server.py:649 | an empty password leaves the string alone; so does a password that does not occur; otherwise the string is cut at the password's occurrences and glued with the token |
| SharedServer.RedactCutsAtPassword | shared_code/mcp_server.py:649 | for a non-empty password, redaction replaces each left-to-right, non-overlapping occurrence by the token and leaves the pieces between them unchanged |
| SharedServer.RedactHides | shared_code/mcp_server.py:763-766 | when the token shares no character with the password, the password no longer occurs |
| SharedServer.RedactionCanLeavePassword | shared_code/mcp_server.py:649 | the absence is not guaranteed: `**` redacted by `***` still occurs |
| SharedServer.QuerySqlServer | shared_code/mcp_server.py:671-745 | a refused query gets its refusal message and reaches no database; an allowed one is run unchanged over the settings' connection; success carries the columns, the records of the fetched rows, the row count and the mode, and happens exactly when every row fits; a failure carries the driver's message, or "list index out of range" when a row is longer than the columns, with the query, the settings and the redacted connection string |
| SharedServer.TestSqlConnection | shared_code/mcp_server.py:606-651 | the probe runs over the settings' connection string; connected exactly when the probe query runs; a returned row's two values become the version and the database name, and "Unknown" stands for both when no row comes back; the reply names the settings' server, database and mode; a failure carries the driver's message and the redacted connection string |
| SharedServer.SampleHidesPassword | shared_code/mcp_server.py:649 | a password with no `*` never appears in the sample |
| SharedServer.GetSqlConfigDebug | shared_code/mcp_server.py:759-778 | the dump copies the settings' server, database, authentication, driver, timeout, encrypt and trust-certificate values, and shows the connection string redacted with `***REDACTED***`, and unchanged when the password is empty |
| SharedServer.DebugHidesPassword | shared_code/mcp_server.py:763-766 | a password sharing no character with `***REDACTED***` never appears in the dump |
| SharedServer.GetBmiResources | shared_code/mcp_server.py:489-527 | a name selects its own resource; `all` and only `all` gives every resource with the four URIs; a type outside the five valid ones gives "Invalid resource type: <type>" with the valid types and the URIs |
| SharedServer.Index | shared_code/mcp_server.py:507-512 | each resource's position in the resource list |
| SharedServer.SelectByName | shared_code/mcp_server.py:490-497 | each resource is reached by its own name, which is listed among the valid types, and listed under its URI |
| SharedServer.ValidTypesAreNames | shared_code/mcp_server.py:519 | the valid types are `all` followed by the four resource names, in order |
| SharedServer.Greet | shared_code/mcp_server.py:848 | the greeting is `Hello, <name>!` followed by ` Greetings from Azure Functions with MCP Server integration!` |
| BmiServer.Listing | bmi_server.py:357-375 | the listing names the current key, counts the table, and has one entry per key in table order, with its profile's name, server, database, authentication and description, marked current exactly when its key is the current one |
| BmiServer.ListingMarksOne | bmi_server.py:358-368 | exactly one listed entry is marked current, the one under the current key |
| BmiServer.TableEntryOf | bmi_server.py:256-261 | an entry copies the row's schema, name and type; its full name splits back into schema and table when the schema holds no dot |
| BmiServer.QualifiedNameSplits | bmi_server.py:260 | `schema.table` reads back as its parts when the schema holds no dot |
| BmiServer.ConfigurationStore.constructor | bmi_server.py:14-19 | the store starts with the shipped table and `docker_test` current, and keeps its invariant |
| BmiServer.ConfigurationStore.ConnectionString | bmi_server.py:34-38 | no name, or an empty one, gives the current profile's string, which always builds; another name gives that name's result from the table, and builds exactly when the name is in it |
| BmiServer.ConfigurationStore.SetConfiguration | bmi_server.py:385-414 | an unknown name is refused with the available keys and leaves the current key as it was; a known name becomes current, the reply names the old and new keys and the description, and the connection string without a name is then that profile's |
| BmiServer.ConfigurationStore.ListConfigurations | bmi_server.py:357-375 | one entry per key in table order, the total, and the current key, each entry marked current exactly when its key is |
| BmiServer.ConfigurationStore.QuerySqlServer | bmi_server.py:172-229 | the same guard; only an allowed query is run, unchanged, over the current profile's connection; success carries the columns, the records of the fetched rows and the row count, exactly when every row fits; a failure carries the driver's message, or "list index out of range" when a row is longer than the columns, and the query |
| BmiServer.ConfigurationStore.GetTableList | bmi_server.py:247-278 | one entry per table, in order, each with full name `schema.table`; the count is the number of entries; a failed catalog gives its error |
| BmiServer.ConfigurationStore.GetTableSchema | bmi_server.py:305-349 | no column means "Table '<schema>.<table>' not found"; otherwise the columns in order, and the count, which is positive; a failed catalog gives its error with the qualified name |
| BmiServer.ConfigurationStore.TestSqlConnection | bmi_server.py:121-157 | the probe runs over the current connection; connected exactly when it gives a row, whose two values become the version and the database name, with "Unknown" when the row is missing; a failure carries the probe's message; the reply names the start-up profile's server and database |
| BmiServer.ConfigurationStore.TestNetworkConnectivity | bmi_server.py:86-118 | the report is the connectivity report of the start-up profile's server whatever the current key: port 1433, reachable exactly when the connect code is 0, with the time, or the error text otherwise |
| BmiServer.ShippedStore | bmi_server.py:14-19 | the shipped table builds for every key, has distinct keys, and holds the start-up key |
| BmiServer.Greet | bmi_server.py:427 | the greeting is exactly `Hello, <name>!`: `Hello, `, then the name, then `!`, and nothing else |

## Left out

- The FastMCP tool registry and dispatch, the HTTP, SSE and Azure Functions transports, and the `__main__` transport selection. These belong to a foreign library or do request handling; tools are modelled as plain functions and methods.
- pyodbc connections and cursors, and socket connects. These are database and network I/O. The fetched columns and rows, the probe's row, the catalog rows and the connect outcome are inputs. Closing a cursor or a connection is not modelled.
- Floating-point arithmetic. The BMI is an exact real. `round` and the healthy-weight range (shared_code/mcp_server.py:420-434) are not modelled, and neither is the formatted `calculation` text.
- Bmi.CalculateBmi: states that the report is that of `weight / height²` over exact reals, not the float the code computes.
- `json.dumps` formatting, the `status` fields, the static resource texts and the fixed `resources`, `recommendations` and `disclaimer` blocks. These are serialisation and constant text. The resource selector answers with which resource it returns.
- `get_sql_config`'s environment reads, and the environment listing in `get_sql_config_debug`. The settings come in as a record.
- `os.environ` in `sql_config.py`: the environment is a map passed to `Configurations`.
- The `ImportError` and `NameError` fallbacks of `bmi_server.py` (lines 20-31, 39-51, 377-382, 416-421). The configuration module is assumed importable, so the fallback profile, the manual connection string and the "SQL configuration system not available" replies are not modelled.
- `get_alternative_connection_string` (bmi_server.py:54-65). It is a troubleshooting builder that nothing calls and that is not a tool. It would write the start-up profile with `Authentication=ActiveDirectoryPassword`, `TrustServerCertificate=yes` and `Connection Timeout=60`.
- `get_server_info` (shared_code/mcp_server.py:805-831). It only copies environment variables and the configuration key into its reply.
- `list_configurations`, `test_configuration`, `create_local_docker_setup` and `main` of `sql_config.py` (lines 105-217). They print, or open a connection and print what it gives.
- Logging calls. They only write to the log.
- The `except Exception` branches of the shared `calculate_bmi` and `get_bmi_resources`. Nothing in the modelled arithmetic or selection raises.
- `str.upper` on non-ASCII characters. Only ASCII letters are mapped. A non-ASCII character whose upper case spells part of a deny-listed word is not modelled. Neither is one that spells part of `SELECT`: Python allows `ſelect * from t`, because `ſ` upper-cases to `S`, while the model answers NotSelect.
- `repr` of a key holding a quote, a backslash or a non-printable character. The shipped keys hold none of these.
- The default `schema_name="dbo"` of `get_table_schema`. The schema is always an argument.
- The default `resource_type="all"` of `get_bmi_resources`. The type is always an argument; passing `all` gives what the default gives.
- The `use_tcp=True` parameter of the shared `get_connection_string`. The code never reads it, so the model has no such parameter.
- `;` inside a profile field of `sql_config.py`. Nothing is escaped, so a username or `SQL_PASSWORD` holding `;key=value` adds a segment, as SharedServer.PasswordCanAddSegment shows for the shared builder. The layout lemmas assume no field holds `;`.
- The driver's row objects. A row of `get_table_list` or `get_table_schema` is a record of the fields the code reads.
- `ConnectionStringFor` is a function of the table and the name, so two calls with the same name agree by construction; no lemma restates this.
- Integer widths are irrelevant here. Timeouts are unbounded integers printed by `str`.
- The precommit script, the diagnostics script, the clients, the test scripts and the guides. They have no logic of their own.
