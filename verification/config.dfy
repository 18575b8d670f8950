/**
  Start-up configuration of the server process: which connection URI and
  credentials to use, which authentication mode follows from them, the
  launch configuration printed for `--json`, and which of the three start-up
  modes (print version, print launch configuration, connect and serve) runs.
 */
module Config {
  import opened Wrappers

  /** The built-in connection URI used when neither flag nor environment gives one. */
  const DefaultUri: string := "bolt://localhost:7687"

  /** Command-line spellings of the three connection flags. */
  const UriFlag: string := "--connection-uri"
  const UserFlag: string := "--username"
  const PassFlag: string := "--password"

  /** The three string-valued connection flags; an unset flag is "". */
  datatype ConnFlags = ConnFlags(connectionUri: string, username: string, password: string)

  /** Everything the command line carries. */
  datatype Flags = Flags(json: bool, version: bool, conn: ConnFlags)

  /** The environment variables MEMGRAPH_URI, MEMGRAPH_USER and
      MEMGRAPH_PASSWORD; an unset variable reads as "". */
  datatype Env = Env(uri: string, user: string, password: string)

  datatype ConnectionParams = ConnectionParams(uri: string, username: string, password: string)

  /** Driver authentication token: no authentication, or basic with a realm. */
  datatype Auth = NoAuth | BasicAuth(username: string, password: string, realm: string)

  /** The `--json` launch configuration: transport kind, executable, arguments, environment. */
  datatype LaunchConfig = LaunchConfig(kind: string, command: string, args: seq<string>, env: map<string, string>)

  /** The three mutually exclusive things the process can do at start-up. */
  datatype Startup =
    | PrintVersion
    | PrintConfig(config: LaunchConfig)
    | Connect(params: ConnectionParams, auth: Auth)

  /** One field, resolved as the program does it: start from the default,
      let a non-empty environment value override it, then let a non-empty
      flag override that. */
  function Resolve(flag: string, env: string, default: string): (r: string)
    ensures flag != "" ==> r == flag
    ensures flag == "" && env != "" ==> r == env
    ensures flag == "" && env == "" ==> r == default
    ensures r == "" <==> flag == "" && env == "" && default == ""
  {
    var afterEnv := if env != "" then env else default;
    if flag != "" then flag else afterEnv
  }

  /** Connection parameters from flags and environment. */
  function ResolveParams(flags: ConnFlags, env: Env): (p: ConnectionParams)
    ensures p.uri == Resolve(flags.connectionUri, env.uri, DefaultUri)
    ensures p.username == Resolve(flags.username, env.user, "")
    ensures p.password == Resolve(flags.password, env.password, "")
    ensures p.uri != ""
  {
    ConnectionParams(
      Resolve(flags.connectionUri, env.uri, DefaultUri),
      Resolve(flags.username, env.user, ""),
      Resolve(flags.password, env.password, ""))
  }

  /** Basic authentication exactly when a username or a password is set,
      with the empty realm; no authentication otherwise. */
  function SelectAuth(username: string, password: string): (a: Auth)
    ensures a.BasicAuth? <==> username != "" || password != ""
    ensures a.NoAuth? <==> username == "" && password == ""
    ensures a.BasicAuth? ==> a.username == username && a.password == password && a.realm == ""
  {
    if username != "" || password != "" then BasicAuth(username, password, "") else NoAuth
  }

  /** No authentication is used exactly when neither flags nor environment
      supply a username or a password. */
  lemma NoAuthIff(flags: ConnFlags, env: Env)
    ensures var p := ResolveParams(flags, env);
            SelectAuth(p.username, p.password).NoAuth?
            <==> flags.username == "" && env.user == "" && flags.password == "" && env.password == ""
  {
  }

  /** The two arguments `name value` when `value` is set, nothing otherwise. */
  function FlagPair(name: string, value: string): seq<string> {
    if value != "" then [name, value] else []
  }

  function CountSet(c: ConnFlags): nat {
    (if c.connectionUri != "" then 1 else 0)
    + (if c.username != "" then 1 else 0)
    + (if c.password != "" then 1 else 0)
  }

  /** Position of a flag name in the fixed emission order. */
  function FlagRank(name: string): int {
    if name == UriFlag then 0 else if name == UserFlag then 1 else if name == PassFlag then 2 else 3
  }

  /** The value `c` holds for the flag spelled `name`. */
  function FlagValue(c: ConnFlags, name: string): string {
    if name == UriFlag then c.connectionUri
    else if name == UserFlag then c.username
    else if name == PassFlag then c.password
    else ""
  }

  /** The argument list of the launch configuration: one `name value` pair
      per non-empty connection flag, in the order connection URI, username,
      password. */
  function LaunchArgs(c: ConnFlags): (args: seq<string>)
    ensures |args| == 2 * CountSet(c)
    ensures CountSet(c) == 0 ==> args == []
  {
    FlagPair(UriFlag, c.connectionUri) + FlagPair(UserFlag, c.username) + FlagPair(PassFlag, c.password)
  }

  /** `args` is a list of `name value` pairs for the flags of `c`: each
      name is a known flag whose value in `c` is non-empty and follows it
      immediately, and the names appear in strictly increasing emission
      order starting at rank `from`, so none is repeated. */
  predicate OrderedPairs(args: seq<string>, c: ConnFlags, from: int)
    decreases |args|
  {
    |args| == 0
    || (&& |args| >= 2
        && from <= FlagRank(args[0]) < 3
        && args[1] == FlagValue(c, args[0])
        && args[1] != ""
        && OrderedPairs(args[2..], c, FlagRank(args[0]) + 1))
  }

  lemma RankFacts()
    ensures FlagRank(UriFlag) == 0 && FlagRank(UserFlag) == 1 && FlagRank(PassFlag) == 2
  {
  }

  lemma PairThen(name: string, c: ConnFlags, rest: seq<string>, from: int)
    requires from <= FlagRank(name) < 3 && FlagValue(c, name) != ""
    requires OrderedPairs(rest, c, FlagRank(name) + 1)
    ensures OrderedPairs([name, FlagValue(c, name)] + rest, c, from)
  {
    assert ([name, FlagValue(c, name)] + rest)[2..] == rest;
  }

  /** The launch arguments are exactly ordered flag pairs: connection URI
      before username before password, each name followed by its value. */
  lemma {:induction false} LaunchArgsPairs(c: ConnFlags)
    ensures OrderedPairs(LaunchArgs(c), c, 0)
  {
    RankFacts();
    var p := FlagPair(PassFlag, c.password);
    var np := FlagPair(UserFlag, c.username) + p;
    assert OrderedPairs([], c, 3);
    if c.password != "" {
      PairThen(PassFlag, c, [], 2);
      assert p == [PassFlag, FlagValue(c, PassFlag)] + [];
    }
    assert OrderedPairs(p, c, 2);
    if c.username != "" {
      PairThen(UserFlag, c, p, 1);
      assert np == [UserFlag, FlagValue(c, UserFlag)] + p;
    }
    assert OrderedPairs(np, c, 1);
    if c.connectionUri != "" {
      PairThen(UriFlag, c, np, 0);
      assert LaunchArgs(c) == [UriFlag, FlagValue(c, UriFlag)] + np;
    } else {
      assert LaunchArgs(c) == np;
    }
  }

  /** Every set flag appears, as a name immediately followed by its value. */
  lemma LaunchArgsMentionsSetFlags(c: ConnFlags, name: string)
    requires FlagRank(name) < 3 && FlagValue(c, name) != ""
    ensures exists i :: 0 <= i < |LaunchArgs(c)| - 1 && LaunchArgs(c)[i] == name && LaunchArgs(c)[i + 1] == FlagValue(c, name)
  {
    var args := LaunchArgs(c);
    var u := FlagPair(UriFlag, c.connectionUri);
    var n := FlagPair(UserFlag, c.username);
    if name == UriFlag {
      assert args[0] == name && args[1] == FlagValue(c, name);
    } else if name == UserFlag {
      assert args[|u|] == name && args[|u| + 1] == FlagValue(c, name);
    } else {
      assert args[|u| + |n|] == name && args[|u| + |n| + 1] == FlagValue(c, name);
    }
  }

  /** The launch configuration printed by `--json`: a stdio transport that
      runs `executable` with the connection flags and an empty environment. */
  function MakeLaunchConfig(c: ConnFlags, executable: string): (cfg: LaunchConfig)
    ensures cfg.kind == "stdio" && cfg.command == executable
    ensures cfg.args == LaunchArgs(c) && cfg.env == map[]
  {
    LaunchConfig("stdio", executable, LaunchArgs(c), map[])
  }

  function SetFlag(acc: ConnFlags, name: string, value: string): ConnFlags {
    if name == UriFlag then acc.(connectionUri := value)
    else if name == UserFlag then acc.(username := value)
    else acc.(password := value)
  }

  const NoFlags: ConnFlags := ConnFlags("", "", "")

  /** Reading connection flags back from an argument list, for the
      space-separated `--name value` form: a later occurrence of a flag
      overrides an earlier one, a flag without a value and an unknown
      argument are errors. */
  function ParseConnArgs(args: seq<string>, acc: ConnFlags): Result<ConnFlags>
    decreases |args|
  {
    if |args| == 0 then Ok(acc)
    else if FlagRank(args[0]) == 3 then Err("unsupported argument: " + args[0])
    else if |args| == 1 then Err("missing value for " + args[0])
    else ParseConnArgs(args[2..], SetFlag(acc, args[0], args[1]))
  }

  lemma ParsePair(name: string, value: string, rest: seq<string>, acc: ConnFlags)
    requires FlagRank(name) < 3
    ensures ParseConnArgs(FlagPair(name, value) + rest, acc)
         == ParseConnArgs(rest, if value != "" then SetFlag(acc, name, value) else acc)
  {
    if value != "" {
      var args := FlagPair(name, value) + rest;
      assert args[0] == name && args[1] == value;
      assert args[2..] == rest;
    } else {
      assert FlagPair(name, value) + rest == rest;
    }
  }

  /** Round trip: parsing the launch arguments recovers the connection
      flags they were built from, so the relaunched process sees the same
      flags as the process that printed the configuration. */
  lemma {:induction false} LaunchArgsRoundTrip(c: ConnFlags)
    ensures ParseConnArgs(LaunchArgs(c), NoFlags) == Ok(c)
  {
    var u := FlagPair(UriFlag, c.connectionUri);
    var n := FlagPair(UserFlag, c.username);
    var p := FlagPair(PassFlag, c.password);
    assert LaunchArgs(c) == u + (n + p);
    ParsePair(UriFlag, c.connectionUri, n + p, NoFlags);
    var a1 := ConnFlags(c.connectionUri, "", "");
    ParsePair(UserFlag, c.username, p, a1);
    var a2 := ConnFlags(c.connectionUri, c.username, "");
    ParsePair(PassFlag, c.password, [], a2);
    assert p + [] == p;
  }

  /** A process started from the printed launch configuration resolves the
      same connection parameters as one started with the original flags. */
  lemma RelaunchResolvesSameParams(c: ConnFlags, env: Env)
    ensures var parsed := ParseConnArgs(LaunchArgs(c), NoFlags);
            parsed.Ok? && ResolveParams(parsed.value, env) == ResolveParams(c, env)
  {
    LaunchArgsRoundTrip(c);
  }

  /** The start-up decision: `--version` wins over `--json`, which wins over
      connecting; connecting uses the resolved parameters and the
      authentication mode they imply. */
  function Start(flags: Flags, env: Env, executable: string): (s: Startup)
    ensures flags.version <==> s.PrintVersion?
    ensures s.PrintConfig? <==> !flags.version && flags.json
    ensures s.PrintConfig? ==> s.config == MakeLaunchConfig(flags.conn, executable)
    ensures s.Connect? ==>
      s.params == ResolveParams(flags.conn, env)
      && s.auth == SelectAuth(s.params.username, s.params.password)
      && (s.auth.NoAuth? <==> s.params.username == "" && s.params.password == "")
  {
    if flags.version then PrintVersion
    else if flags.json then PrintConfig(MakeLaunchConfig(flags.conn, executable))
    else
      var p := ResolveParams(flags.conn, env);
      Connect(p, SelectAuth(p.username, p.password))
  }
}
