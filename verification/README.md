# Memgraph MCP server: a Dafny model of its decision logic

The server connects a Memgraph graph database to a tool-invocation host over
stdio. It exposes two tools, `run_query` and `get_schema`. Almost all of
`main.go` is plumbing. This project pulls out the pure decisions in that
plumbing, models them as total functions over immutable datatypes, and
proves what they promise:

- **Connection parameters** (`Config`). The connection URI, username and
  password each come from the command-line flag if it is non-empty, else
  the environment variable (`MEMGRAPH_URI`, `MEMGRAPH_USER`,
  `MEMGRAPH_PASSWORD`) if it is non-empty, else the built-in default
  (`bolt://localhost:7687`, `""`, `""`).
- **Auth mode** (`Config`). Basic auth with an empty realm is used exactly
  when a username or a password is set. Otherwise no auth is used.
- **Launch configuration** (`Config`). `--json` prints a stdio launch
  configuration. Its argument list holds `--connection-uri`, `--username`
  and `--password` pairs, in that order, each only when its flag is set.
  `--version` takes priority over `--json`, and `--json` over connecting.
- **Safety gate** (`Text`, `Gate`). `run_query` needs a string `query`
  argument. Its `unsafe` switch is true only when the boolean `true` is
  supplied. Unless `unsafe` is true, a query is refused when its lower-cased
  text contains `delete `, `remove `, `drop `, `create `, `merge ` or `set `.
- **Result reshaping and response** (`Values`, `Results`). Nodes,
  relationships and paths become fixed-key objects, and every other value
  passes through. Columns are captured from the records. The response is an
  error, a "no records" message, or columns, rows and a count. `get_schema`
  copies its records without reshaping.

The database is a parameter. Running a query is a function `run` from query
text to a `RunOutcome`: either an immediate failure, or the records the
driver delivered plus the error, if any, that the stream reports after
iteration stops. The environment and the executable path are parameters of
`Config.Start`. Nothing here performs I/O.

Three points where the code's behaviour is easy to misread:

- **Columns of an empty result.** With zero records the no-records message
  always carries an empty column list, because columns are captured only
  from a record that was read (main.go:212-214).
  `Results.NoRecordsHasNoColumns` proves it.
- **Which record supplies the columns.** The code replaces the captured
  columns while they are still empty. So the columns are those of the first
  record that has any, not necessarily the first record
  (`Results.FirstKeys`). For a driver result, where every record names its
  columns, this is the same as the first record
  (`Results.ColumnsFromFirstRecord`).
- **How a record is read.** The code indexes `record.Values` by column name
  and ranges over it as a name-to-value map. A record is modelled that way.
  A name the record lacks reads as nil (`Null`), as a Go map lookup does.

Lower-casing is ASCII only: 'A'..'Z' become 'a'..'z' and every other
character is unchanged. This is a modelling assumption. For this keyword
list it does not change the gate's verdict. The keywords use only the
letters a c d e g l m o p r s t v and the space. Under Go's Unicode
lower-casing, the only non-ASCII characters that become ASCII letters
become 'k' or 'i', which no keyword contains.

## Model

| member | source | states |
|---|---|---|
| `Config.Resolve` | main.go:85-109 | A non-empty flag wins, else a non-empty environment value, else the default. The result is empty only when all three are empty. |
| `Config.ResolveParams` | main.go:85-109 | URI, username and password are each resolved by that precedence, with defaults `bolt://localhost:7687`, `""` and `""`. The resolved URI is never empty. |
| `Config.SelectAuth` | main.go:113-116 | Basic auth exactly when username or password is non-empty, carrying both and an empty realm. No auth exactly when both are empty. |
| `Config.NoAuthIff` | main.go:85-116 | No auth is used exactly when neither flags nor environment supply a username or a password. |
| `Config.LaunchArgs` | main.go:56-69 | The argument list has two entries per non-empty connection flag. It is empty when no flag is set. |
| `Config.LaunchArgsPairs` | main.go:61-69 | The arguments are `name value` pairs of known flags with non-empty values, in the order connection URI, username, password, with no flag repeated. |
| `Config.LaunchArgsMentionsSetFlags` | main.go:61-69 | Every non-empty flag appears, immediately followed by its value. |
| `Config.MakeLaunchConfig` | main.go:53-69 | The launch configuration is a `stdio` transport running the given executable, with the launch arguments and an empty environment map. |
| `Config.LaunchArgsRoundTrip` | main.go:40-69 | Parsing the launch arguments as the program's own connection flags gives back exactly the flags they were built from. |
| `Config.RelaunchResolvesSameParams` | main.go:40-109 | A process started from the printed configuration resolves the same connection parameters as the original invocation when both processes see the same environment; the printed configuration carries no environment values. |
| `Config.Start` | main.go:46-116 | `--version` exactly selects the version printout. `--json` without it exactly selects the launch configuration. Otherwise the process connects with the resolved parameters and the authentication `SelectAuth` gives for the resolved username and password: basic auth carrying them with an empty realm, or no auth exactly when both are empty. |
| `Text.Lower` | main.go:180 | Lower-casing keeps the length and maps each character on its own: 'A'..'Z' to 'a'..'z', every other character unchanged (ASCII model of `strings.ToLower`). |
| `Text.ContainsIff` | main.go:181-186 | The scanning substring search holds exactly when the fragment occurs at some position. |
| `Text.ContainsAnyIff` | main.go:181-186 | The chained search holds exactly when at least one listed fragment is contained. |
| `Gate.QueryArg` | main.go:167-170 | The query is present exactly when the `query` argument exists and is a string, and it is that string. |
| `Gate.UnsafeArg` | main.go:173-176 | `unsafe` is true exactly when the argument is present and is the boolean `true`. Absent or non-boolean values give false. |
| `Gate.Blocked` | main.go:180-186 | The gate's verdict: the lower-cased query contains one of the six fragments, tried in the source's order. A query shorter than `set ` is never blocked. |
| `Gate.BlockedIff` | main.go:180-186 | A query is blocked exactly when some window of its lower-cased text equals one of the six keyword-plus-space fragments. |
| `Gate.BlockedCaseInsensitive` | main.go:180-186 | A query is blocked exactly when its lower-cased form is blocked. |
| `Gate.AnyCaseKeywordBlocks` | main.go:180-187 | A keyword in any mix of letter case, followed by a space, anywhere in the query, blocks it. |
| `Gate.BlockedInContext` | main.go:180-187 | Adding text before or after a blocked query never unblocks it. |
| `Gate.NoSpaceNeverBlocked` | main.go:180-186 | The gate is lexical: a query containing no space character is never blocked, whatever keywords it holds. |
| `Gate.TabAfterKeywordPasses` | main.go:181-186 | As an instance, `DROP` followed by a tab is not blocked. |
| `Gate.CheckQuery` | main.go:167-189 | A missing or non-string query gives "Query parameter is required". A blocked query without `unsafe` gives the unsafe-query error. A query passes exactly when it is a string and either `unsafe` is true or it is not blocked. A passing query is returned unmodified. |
| `Gate.UnsafeNeverBlocks` | main.go:173-189 | With `unsafe` set to true, every string query passes unchanged. |
| `Gate.SafeModeGate` | main.go:173-189 | Without `unsafe` set to true, a string query passes exactly when it is not blocked. |
| `Values.Reshape` | main.go:222-248 | A node becomes an object with keys id, labels and properties. A relationship becomes one with keys id, type, start, end and properties. A path becomes one with keys nodes and relationships, holding its two lengths. Any other value, including a container holding graph values, passes through unchanged, and only those do. |
| `Values.NodeRoundTrip` | main.go:223-229 | A reshaped node can be read back to the same element id, labels and properties. |
| `Values.RelRoundTrip` | main.go:230-238 | A reshaped relationship can be read back to the same element id, type, endpoint ids and properties. |
| `Values.PathShapeIff` | main.go:239-245 | Two paths reshape to the same object exactly when they have the same number of nodes and the same number of relationships. |
| `Results.ShapeRow` | main.go:216-249 | A row has exactly the captured column names as keys. Each maps to the reshaped value of that column, and a missing column reads as null. |
| `Results.Collect` | main.go:205-251 | The collection loop, one `Step` per record: it yields one row per record, and captures no columns exactly when no record names any. |
| `Results.CollectSpec` | main.go:201-251 | The collection loop captures the columns of the first record that has any. It yields one row per record, each shaped by the columns known when that record was read. |
| `Results.ColumnsFromFirstRecord` | main.go:211-219 | When the first record names its columns, those are the columns, and every row has exactly those keys. |
| `Results.RespondToQuery` | main.go:195-273 | An execution failure or trailing stream error gives an error result and drops the rows. Zero records give the no-records message. Otherwise the result carries the reference columns, the shaped rows, and a count equal to the number of rows and of records. |
| `Results.HandleQuery` | main.go:166-273 | A query is sent to the database exactly when it passes the check, and then verbatim. A missing query gives the parameter error and runs nothing. Every refusal is a tool-level error. |
| `Results.BlockedNeverExecutes` | main.go:179-195 | A blocked query without `unsafe` is never run. The handler's outcome is the unsafe-query error whatever the database would do. |
| `Results.UnsafeQueryForwarded` | main.go:173-198 | With `unsafe` true, the query text reaches the database unmodified, and the response is the one for that run. |
| `Results.NoRecordsHasNoColumns` | main.go:201-265 | The no-records message only arises from an error-free empty stream, and its column list is always empty. |
| `Results.RespondToSchema` | main.go:282-317 | A run failure or trailing error gives the schema error messages. Zero records give "No schema information available.". An error-free, non-empty stream always gives the schema result, with one item per record, each an unreshaped copy of its values. |
| `Results.HandleSchema` | main.go:277-282 | `get_schema` takes no arguments and always runs the fixed query `SHOW SCHEMA INFO;`. |

## Left out

- Driver construction, `VerifyConnectivity`, sessions and the Bolt wire protocol (main.go:118-130, 192-198, 278-282). These are foreign driver calls and network I/O. Running a query is the parameter `run`, and a connection failure is outside the model.
- MCP server creation, tool registration and `ServeStdio` (main.go:133-162). This is a library wrapper plus stdio transport. Only the handlers behind the two tools are modelled.
- `json.Marshal` and `fmt.Sprintf("%v", …)` rendering of the launch configuration and of results (main.go:72-76, 264, 273, 317). This is library serialisation with unspecified map order. Results are kept as structured `ToolResult` values. A Go error in a message is represented by its text.
- Null versus empty for `args` and `env` (main.go:56-57). Dafny sequences and maps have no null, so the property proved is that both are empty when no flag is set.
- `getExecutablePath`, `os.Getenv`, the `--version` text and the `log.Fatalf` exits (main.go:47, 90-98, 321-328). These are OS and I/O. The environment and executable path are parameters, and the version printout is the `PrintVersion` outcome without its text.
- `Config.LaunchArgsRoundTrip`: it uses a model of Go's `flag.Parse` covering only the three string connection flags in the `--name value` form that the launch configuration emits. The `-name`, `--name=value` and `--` forms, boolean flags and positional arguments are not modelled.
- Full Unicode `strings.ToLower`. Lower-casing is ASCII only, as explained above.
- Cancellation, timeouts and concurrent sessions. The source has none of its own.
