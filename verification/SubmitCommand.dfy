/** The `spark-submit` command line of a launch (server/src/launcher.rs). */
module SubmitCommand {
  import opened Wrappers
  import opened Text
  import opened Launcher

  const APP_NAME_CONFIG := "spark.app.name"
  const TOKEN_CONFIG := "spark.connect.authenticate.token"
  const CALLBACK_CONFIG := "spark.plug.callback"
  const TIMEOUT_CONFIG := "spark.plug.idle.timeout"
  const LISTENER_CONFIG := "spark.extraListeners"
  const INTERCEPTOR_CONFIG := "spark.connect.grpc.interceptor.classes"
  const GRPC_PORT_CONFIG := "spark.connect.grpc.binding.port"
  const PYTHON_CONFIG := "spark.sql.execution.pyspark.python"

  const LISTENER_CLASS := "org.apache.spark.sql.sparkplug.SparkPlugListener"
  const INTERCEPTOR_CLASS := "org.apache.spark.sql.sparkplug.SparkPlugInterceptor"
  const SERVER_CLASS := "org.apache.spark.sql.sparkplug.SparkPlugServer"

  datatype SparkLauncher = SparkLauncher(callbackAddr: string, sessionTimeout: nat, pluginPath: string)

  datatype Launch = Launch(
    sessionId: int,
    appName: Option<string>,
    username: string,
    token: string,
    userConfig: Config,
    venvTarball: Option<string>
  )

  // ----- The configuration of a launch, key by key -----

  /** The value the server forces on one of its own six keys. */
  function Internal(launcher: SparkLauncher, launch: Launch, key: string): Option<string> {
    if key == TOKEN_CONFIG then Some(launch.token)
    else if key == CALLBACK_CONFIG then Some(launcher.callbackAddr)
    else if key == TIMEOUT_CONFIG then Some(Decimal(launcher.sessionTimeout))
    else if key == LISTENER_CONFIG then Some(LISTENER_CLASS)
    else if key == INTERCEPTOR_CONFIG then Some(INTERCEPTOR_CLASS)
    else if key == GRPC_PORT_CONFIG then Some("0")
    else None
  }

  function VenvArchive(tarball: string): string {
    tarball + "#environment"
  }

  /** The archive list with the environment appended; an empty list is replaced. */
  function WithArchive(existing: Option<string>, archive: string): string {
    if existing.Some? && existing.value != "" then existing.value + "," + archive else archive
  }

  /** The final value of any key, from what the layers say of that key alone. */
  function FinalAt(launcher: SparkLauncher, version: SparkVersion, launch: Launch, key: string): Option<string> {
    var layered := Layered(version, launch.userConfig, key);
    if Internal(launcher, launch, key).Some? then Internal(launcher, launch, key)
    else if launch.venvTarball.Some? && key == PYTHON_CONFIG then Some("../environment/bin/python")
    else if launch.venvTarball.Some? && key == ARCHIVES then Some(WithArchive(layered, VenvArchive(launch.venvTarball.value)))
    else if key == APP_NAME_CONFIG && launch.appName.Some? then launch.appName
    else if key == APP_NAME_CONFIG && layered.None? then Some("spark-plug-session-" + Decimal(launch.sessionId))
    else layered
  }

  /** The values of the keys the server writes, by their names. */
  lemma {:induction false} FinalValues(launcher: SparkLauncher, version: SparkVersion, launch: Launch)
    ensures FinalAt(launcher, version, launch, "spark.connect.authenticate.token") == Some(launch.token)
    ensures FinalAt(launcher, version, launch, "spark.plug.callback") == Some(launcher.callbackAddr)
    ensures FinalAt(launcher, version, launch, "spark.plug.idle.timeout") == Some(Decimal(launcher.sessionTimeout))
    ensures FinalAt(launcher, version, launch, "spark.extraListeners")
            == Some("org.apache.spark.sql.sparkplug.SparkPlugListener")
    ensures FinalAt(launcher, version, launch, "spark.connect.grpc.interceptor.classes")
            == Some("org.apache.spark.sql.sparkplug.SparkPlugInterceptor")
    ensures FinalAt(launcher, version, launch, "spark.connect.grpc.binding.port") == Some("0")
    ensures FinalAt(launcher, version, launch, "spark.app.name") ==
            if launch.appName.Some? then launch.appName
            else if Layered(version, launch.userConfig, "spark.app.name").Some? then Layered(version, launch.userConfig, "spark.app.name")
            else Some("spark-plug-session-" + Decimal(launch.sessionId))
  {
    KeysDistinct();
  }

  /**
   The environment is unpacked under an alias, a plain directory name, and Python is run from
   the directory of that alias, one level above the working directory of a session.
   */
  lemma {:induction false} PythonOfEnvironment(launcher: SparkLauncher, version: SparkVersion, launch: Launch) returns (alias: string)
    requires launch.venvTarball.Some?
    ensures alias != "" && '/' !in alias && '#' !in alias && ',' !in alias
    ensures FinalAt(launcher, version, launch, "spark.sql.execution.pyspark.python") == Some("../" + alias + "/bin/python")
    ensures var existing := Layered(version, launch.userConfig, "spark.archives");
            FinalAt(launcher, version, launch, "spark.archives") ==
            Some((if existing.Some? && existing.value != "" then existing.value + "," else "")
                 + launch.venvTarball.value + "#" + alias)
  {
    KeysDistinct();
    alias := "environment";
    var tarball := launch.venvTarball.value;
    assert VenvArchive(tarball) == tarball + "#" + alias;
    assert "../" + alias + "/bin/python" == "../environment/bin/python";
    var existing := Layered(version, launch.userConfig, ARCHIVES);
    if existing.Some? && existing.value != "" {
      assert existing.value + "," + VenvArchive(tarball) == existing.value + "," + tarball + "#" + alias;
    }
    assert "" + tarball + "#" + alias == tarball + "#" + alias;
  }

  /** No two of the keys the server writes are the same. */
  lemma {:induction false} KeysDistinct()
    ensures var keys := [APP_NAME_CONFIG, TOKEN_CONFIG, CALLBACK_CONFIG, TIMEOUT_CONFIG, LISTENER_CONFIG,
                         INTERCEPTOR_CONFIG, GRPC_PORT_CONFIG, PYTHON_CONFIG, ARCHIVES];
            forall i, j | 0 <= i < j < |keys| :: keys[i] != keys[j]
  {
    assert APP_NAME_CONFIG[7] == 'p' && ARCHIVES[7] == 'r';
    assert |APP_NAME_CONFIG| == |ARCHIVES| == 14;
    assert |TOKEN_CONFIG| == 32 && |CALLBACK_CONFIG| == 19 && |TIMEOUT_CONFIG| == 23 && |LISTENER_CONFIG| == 20;
    assert |INTERCEPTOR_CONFIG| == 38 && |GRPC_PORT_CONFIG| == 31 && |PYTHON_CONFIG| == 34;
  }

  // ----- The argument list -----

  function Flag(name: string, value: Option<string>): seq<string> {
    match value
    case Some(v) => [name, v]
    case None => []
  }

  function ConfArgs(order: seq<string>, configs: Config): seq<string>
    requires forall key | key in order :: key in configs
  {
    if order == [] then [] else ["--conf", order[0] + "=" + configs[order[0]]] + ConfArgs(order[1..], configs)
  }

  /** The arguments when the final map is walked in the given order. */
  function SubmitArgs(version: SparkVersion, order: seq<string>, configs: Config, username: string, pluginPath: string):
    seq<string>
    requires forall key | key in order :: key in configs
  {
    Flag("--master", version.master)
    + Flag("--deploy-mode", version.deployMode)
    + ConfArgs(order, configs)
    + ["--class", SERVER_CLASS]
    + Flag("--proxy-user", if version.proxyUser == Some(true) then Some(username) else None)
    + [pluginPath]
  }

  /** The order is a walk of the whole map that visits each key once. */
  ghost predicate Enumerates(order: seq<string>, configs: Config) {
    && (forall key :: key in order <==> key in configs)
    && forall i, j | 0 <= i < j < |order| :: order[i] != order[j]
  }

  /** `build_submit_command`, up to the path of the `spark-submit` program. */
  method BuildSubmitCommand(launcher: SparkLauncher, version: SparkVersion, launch: Launch)
    returns (r: Result<seq<string>, ConfigError>, configs: Config, ghost order: seq<string>)
    ensures r.Ok? <==> forall key | key in FILE_KEYS :: AllAccepted(Entries(launch.userConfig, key))
    ensures r.Err? ==>
              exists k: nat, e: nat :: FirstRefused(launch.userConfig, k, e)
                                       && r.error == Complaint(FILE_KEYS[k], Entries(launch.userConfig, FILE_KEYS[k])[e])
    ensures r.Ok? ==> forall key :: Lookup(configs, key) == FinalAt(launcher, version, launch, key)
    ensures r.Ok? ==> Enumerates(order, configs)
    ensures r.Ok? ==> r.value == SubmitArgs(version, order, configs, launch.username, launcher.pluginPath)
    ensures r.Ok? ==> FlagValues(r.value, "--master") == if version.master.Some? then [version.master.value] else []
    ensures r.Ok? ==> FlagValues(r.value, "--deploy-mode") == if version.deployMode.Some? then [version.deployMode.value] else []
    ensures r.Ok? ==> FlagValues(r.value, "--conf") == Arguments(order, configs)
    ensures r.Ok? ==> FlagValues(r.value, "--class") == ["org.apache.spark.sql.sparkplug.SparkPlugServer"]
    ensures r.Ok? ==> FlagValues(r.value, "--proxy-user") == if version.proxyUser == Some(true) then [launch.username] else []
    ensures r.Ok? ==> r.value != [] && r.value[|r.value| - 1] == launcher.pluginPath
  {
    configs, order := map[], [];
    var valid := ValidateFileConfigs(launch.userConfig);
    if valid.Err? {
      return Err(valid.error), configs, order;
    }

    configs := FinalConfigs(launcher, version, launch);

    var args;
    args, order := BuildArguments(version, configs, launch.username, launcher.pluginPath);
    FlagsReadBack(version, order, configs, launch.username, launcher.pluginPath);
    SubmitArgsShape(version, order, configs, launch.username, launcher.pluginPath);
    r := Ok(args);
  }

  /** The part of `build_submit_command` that lists the arguments. */
  method BuildArguments(version: SparkVersion, configs: Config, username: string, pluginPath: string)
    returns (args: seq<string>, ghost order: seq<string>)
    ensures Enumerates(order, configs)
    ensures args == SubmitArgs(version, order, configs, username, pluginPath)
  {
    args := [];
    if version.master.Some? {
      args := args + ["--master", version.master.value];
    }
    assert args == Flag("--master", version.master);
    ghost var soFar := args;
    if version.deployMode.Some? {
      args := args + ["--deploy-mode", version.deployMode.value];
    }
    assert args == soFar + Flag("--deploy-mode", version.deployMode);

    var confs;
    confs, order := ConfLoop(configs);
    args := args + confs;
    args := args + ["--class", SERVER_CLASS];
    soFar := args;
    if version.proxyUser.Some? && version.proxyUser.value {
      args := args + ["--proxy-user", username];
    }
    assert args == soFar + Flag("--proxy-user", if version.proxyUser == Some(true) then Some(username) else None);
    args := args + [pluginPath];
  }

  /** The insertions of `build_submit_command` into the layered map. */
  method FinalConfigs(launcher: SparkLauncher, version: SparkVersion, launch: Launch) returns (configs: Config)
    ensures forall key :: Lookup(configs, key) == FinalAt(launcher, version, launch, key)
  {
    configs := BuildConf(version, launch.userConfig);
    ghost var base := configs;
    if launch.appName.Some? {
      configs := configs[APP_NAME_CONFIG := launch.appName.value];
    } else if APP_NAME_CONFIG !in configs {
      configs := configs[APP_NAME_CONFIG := "spark-plug-session-" + Decimal(launch.sessionId)];
    }
    ghost var named := configs;

    configs := configs[TOKEN_CONFIG := launch.token];
    configs := configs[CALLBACK_CONFIG := launcher.callbackAddr];
    configs := configs[TIMEOUT_CONFIG := Decimal(launcher.sessionTimeout)];
    configs := configs[LISTENER_CONFIG := LISTENER_CLASS];
    configs := configs[INTERCEPTOR_CONFIG := INTERCEPTOR_CLASS];
    configs := configs[GRPC_PORT_CONFIG := "0"];
    InternalLast(launcher, launch, named);
    ghost var withInternal := configs;

    if launch.venvTarball.Some? {
      var archive := VenvArchive(launch.venvTarball.value);
      if ARCHIVES in configs && configs[ARCHIVES] != "" {
        configs := configs[ARCHIVES := configs[ARCHIVES] + "," + archive];
      } else {
        configs := configs[ARCHIVES := archive];
      }
      configs := configs[PYTHON_CONFIG := "../environment/bin/python"];
    }
    FinalPointwise(launcher, version, launch, base, named, withInternal, configs);
  }

  lemma {:induction false} InternalLast(launcher: SparkLauncher, launch: Launch, named: Config)
    ensures var configs := named[TOKEN_CONFIG := launch.token][CALLBACK_CONFIG := launcher.callbackAddr]
                           [TIMEOUT_CONFIG := Decimal(launcher.sessionTimeout)][LISTENER_CONFIG := LISTENER_CLASS]
                           [INTERCEPTOR_CONFIG := INTERCEPTOR_CLASS][GRPC_PORT_CONFIG := "0"];
            forall key :: Lookup(configs, key) ==
                          if Internal(launcher, launch, key).Some? then Internal(launcher, launch, key) else Lookup(named, key)
  {
    KeysDistinct();
  }

  lemma {:induction false} FinalPointwise(launcher: SparkLauncher, version: SparkVersion, launch: Launch,
                       base: Config, named: Config, withInternal: Config, configs: Config)
    requires forall key :: Lookup(base, key) == Layered(version, launch.userConfig, key)
    requires named == if launch.appName.Some? then base[APP_NAME_CONFIG := launch.appName.value]
                      else if APP_NAME_CONFIG in base then base
                      else base[APP_NAME_CONFIG := "spark-plug-session-" + Decimal(launch.sessionId)]
    requires forall key :: Lookup(withInternal, key) ==
                           if Internal(launcher, launch, key).Some? then Internal(launcher, launch, key) else Lookup(named, key)
    requires configs == if launch.venvTarball.None? then withInternal
                        else withInternal[ARCHIVES := WithArchive(Lookup(withInternal, ARCHIVES),
                                                                  VenvArchive(launch.venvTarball.value))]
                             [PYTHON_CONFIG := "../environment/bin/python"]
    ensures forall key :: Lookup(configs, key) == FinalAt(launcher, version, launch, key)
  {
    KeysDistinct();
    forall key
      ensures Lookup(configs, key) == FinalAt(launcher, version, launch, key)
    {
      assert Lookup(base, key) == Layered(version, launch.userConfig, key);
      assert key != APP_NAME_CONFIG ==> Lookup(named, key) == Lookup(base, key);
      assert Lookup(base, ARCHIVES) == Layered(version, launch.userConfig, ARCHIVES);
      assert Lookup(named, ARCHIVES) == Lookup(base, ARCHIVES);
      assert Internal(launcher, launch, ARCHIVES).None? && Internal(launcher, launch, PYTHON_CONFIG).None?;
      assert Lookup(withInternal, ARCHIVES) == Lookup(named, ARCHIVES);
      if launch.venvTarball.None? || (key != ARCHIVES && key != PYTHON_CONFIG) {
        assert Lookup(configs, key) == Lookup(withInternal, key);
      }
    }
  }

  /** The loop over the final hash map; the order it happens to take is reported. */
  method ConfLoop(configs: Config) returns (args: seq<string>, ghost order: seq<string>)
    ensures Enumerates(order, configs)
    ensures args == ConfArgs(order, configs)
  {
    args, order := [], [];
    var remaining := configs.Keys;
    while remaining != {}
      invariant remaining <= configs.Keys
      invariant forall key :: key in order <==> key in configs && key !in remaining
      invariant forall i, j | 0 <= i < j < |order| :: order[i] != order[j]
      invariant args == ConfArgs(order, configs)
      decreases |remaining|
    {
      var key :| key in remaining;
      remaining := remaining - {key};
      ConfArgsConcat(order, [key], configs);
      args := args + ["--conf", key + "=" + configs[key]];
      order := order + [key];
    }
  }

  lemma {:induction false} ConfArgsConcat(a: seq<string>, b: seq<string>, configs: Config)
    requires forall key | key in a || key in b :: key in configs
    ensures ConfArgs(a + b, configs) == ConfArgs(a, configs) + ConfArgs(b, configs)
  {
    if a == [] {
      assert a + b == b;
    } else {
      assert (a + b)[1..] == a[1..] + b;
      ConfArgsConcat(a[1..], b, configs);
    }
  }

  // ----- What spark-submit reads -----

  /** The properties of the `--conf` pairs, each cut at its first `=`; the last of a key wins. */
  function DecodeConf(args: seq<string>): Config {
    if |args| < 2 then map[]
    else
      var rest := DecodeConf(args[2..]);
      match (args[0] == "--conf", SplitOnce(args[1], '='))
      case (true, Some(pair)) => map[pair.0 := pair.1] + rest
      case _ => rest
  }

  const FLAGS := ["--master", "--deploy-mode", "--conf", "--class", "--proxy-user"]

  /** A list of pairs of a known flag and its value. */
  predicate FlagPairs(args: seq<string>) {
    |args| % 2 == 0 && forall i | 0 <= i < |args| && i % 2 == 0 :: args[i] in FLAGS
  }

  lemma {:induction false} DecodeConcat(a: seq<string>, b: seq<string>)
    requires |a| % 2 == 0
    ensures DecodeConf(a + b) == DecodeConf(a) + DecodeConf(b)
  {
    if a == [] {
      assert a + b == b;
    } else {
      assert (a + b)[2..] == a[2..] + b;
      DecodeConcat(a[2..], b);
    }
  }

  lemma {:induction false} ConfArgsPairs(order: seq<string>, configs: Config)
    requires forall key | key in order :: key in configs
    ensures FlagPairs(ConfArgs(order, configs))
  {
    if order != [] {
      ConfArgsPairs(order[1..], configs);
      var args, rest := ConfArgs(order, configs), ConfArgs(order[1..], configs);
      assert FLAGS[2] == "--conf";
      forall i | 0 <= i < |args| && i % 2 == 0
        ensures args[i] in FLAGS
      {
        assert i >= 2 ==> args[i] == rest[i - 2];
      }
    }
  }

  /** All the arguments but the last are flag/value pairs, and the last is the plugin. */
  lemma {:induction false} SubmitArgsShape(version: SparkVersion, order: seq<string>, configs: Config, username: string, pluginPath: string)
    requires forall key | key in order :: key in configs
    ensures var args := SubmitArgs(version, order, configs, username, pluginPath);
            args != [] && args[|args| - 1] == pluginPath && FlagPairs(args[..|args| - 1])
  {
    var master, mode := Flag("--master", version.master), Flag("--deploy-mode", version.deployMode);
    var confs := ConfArgs(order, configs);
    var user := Flag("--proxy-user", if version.proxyUser == Some(true) then Some(username) else None);
    ConfArgsPairs(order, configs);
    FlagsKnown(version, username);
    PairsConcat(master, mode);
    PairsConcat(master + mode, confs);
    PairsConcat(master + mode + confs, ["--class", SERVER_CLASS]);
    PairsConcat(master + mode + confs + ["--class", SERVER_CLASS], user);
    var args := SubmitArgs(version, order, configs, username, pluginPath);
    assert args[..|args| - 1] == master + mode + confs + ["--class", SERVER_CLASS] + user;
  }

  lemma {:induction false} FlagsKnown(version: SparkVersion, username: string)
    ensures FlagPairs(Flag("--master", version.master))
    ensures FlagPairs(Flag("--deploy-mode", version.deployMode))
    ensures FlagPairs(["--class", SERVER_CLASS])
    ensures FlagPairs(Flag("--proxy-user", if version.proxyUser == Some(true) then Some(username) else None))
  {
    assert FLAGS[0] == "--master" && FLAGS[1] == "--deploy-mode" && FLAGS[3] == "--class" && FLAGS[4] == "--proxy-user";
  }

  lemma {:induction false} PairsConcat(a: seq<string>, b: seq<string>)
    requires FlagPairs(a) && FlagPairs(b)
    ensures FlagPairs(a + b)
  {
    forall i | 0 <= i < |a + b| && i % 2 == 0
      ensures (a + b)[i] in FLAGS
    {
      assert i >= |a| ==> (a + b)[i] == b[i - |a|] && (i - |a|) % 2 == 0;
    }
  }

  lemma {:induction false} DecodeConfArgs(order: seq<string>, configs: Config)
    requires forall key | key in order :: key in configs && '=' !in key
    ensures DecodeConf(ConfArgs(order, configs)) == map key | key in order :: configs[key]
  {
    if order != [] {
      var key := order[0];
      var args := ConfArgs(order, configs);
      assert args[2..] == ConfArgs(order[1..], configs);
      DecodeConfArgs(order[1..], configs);
      SplitOnceExact(args[1], '=', key, configs[key]);
      assert order == [key] + order[1..];
    }
  }

  lemma {:induction false} DecodedKeysPlain(args: seq<string>)
    ensures forall key | key in DecodeConf(args) :: '=' !in key
  {
    if |args| >= 2 {
      DecodedKeysPlain(args[2..]);
      match SplitOnce(args[1], '=')
      case Some(pair) => SplitOnceExact(args[1], '=', pair.0, pair.1);
      case None =>
    }
  }

  lemma {:induction false} DecodeSubmitArgs(version: SparkVersion, order: seq<string>, configs: Config, username: string, pluginPath: string)
    requires forall key | key in order :: key in configs
    ensures DecodeConf(SubmitArgs(version, order, configs, username, pluginPath)) == DecodeConf(ConfArgs(order, configs))
  {
    var master, mode := Flag("--master", version.master), Flag("--deploy-mode", version.deployMode);
    var user := Flag("--proxy-user", if version.proxyUser == Some(true) then Some(username) else None);
    ConfArgsPairs(order, configs);
    NotConf(version, username);
    SilentConcat(master, mode);
    SilentConcat(["--class", SERVER_CLASS], user);
    DecodeBetween(master + mode, ConfArgs(order, configs), ["--class", SERVER_CLASS] + user, pluginPath);
    Regroup(master + mode + ConfArgs(order, configs), ["--class", SERVER_CLASS], user);
  }

  lemma {:induction false} Regroup(a: seq<string>, b: seq<string>, c: seq<string>)
    ensures a + b + c == a + (b + c)
  {
  }

  /** Other flags around the `--conf` pairs, and the plugin path, leave nothing behind. */
  lemma {:induction false} DecodeBetween(front: seq<string>, middle: seq<string>, back: seq<string>, pluginPath: string)
    requires Silent(front) && |middle| % 2 == 0 && Silent(back)
    ensures DecodeConf(front + middle + back + [pluginPath]) == DecodeConf(middle)
  {
    var most := front + middle;
    DropFront(front, middle);
    DropBack(most, back);
    DropLast(most + back, pluginPath);
  }

  lemma {:induction false} DropLast(a: seq<string>, last: string)
    requires |a| % 2 == 0
    ensures DecodeConf(a + [last]) == DecodeConf(a)
  {
    DecodeConcat(a, [last]);
  }

  lemma {:induction false} DropFront(a: seq<string>, b: seq<string>)
    requires |a| % 2 == 0 && DecodeConf(a) == map[]
    ensures DecodeConf(a + b) == DecodeConf(b)
  {
    DecodeConcat(a, b);
  }

  lemma {:induction false} DropBack(a: seq<string>, b: seq<string>)
    requires |a| % 2 == 0 && DecodeConf(b) == map[]
    ensures DecodeConf(a + b) == DecodeConf(a)
  {
    DecodeConcat(a, b);
  }

  /** Reads back as nothing, in whole pairs. */
  predicate Silent(args: seq<string>) {
    |args| % 2 == 0 && DecodeConf(args) == map[]
  }

  lemma {:induction false} SilentConcat(a: seq<string>, b: seq<string>)
    requires Silent(a) && Silent(b)
    ensures Silent(a + b)
  {
    DropFront(a, b);
  }

  lemma {:induction false} NotConf(version: SparkVersion, username: string)
    ensures Silent(Flag("--master", version.master))
    ensures Silent(Flag("--deploy-mode", version.deployMode))
    ensures Silent(["--class", SERVER_CLASS])
    ensures Silent(Flag("--proxy-user", if version.proxyUser == Some(true) then Some(username) else None))
  {
    assert |"--conf"| == 6 && |"--master"| == 8 && |"--deploy-mode"| == 13 && |"--class"| == 7 && |"--proxy-user"| == 12;
  }

  /**
   In whatever order the map is walked, reading the arguments back gives exactly
   the final map, if and only if no key contains an equals sign.
   */
  lemma {:induction false} SubmitArgsDecodeBack(version: SparkVersion, order: seq<string>, configs: Config, username: string, pluginPath: string)
    requires Enumerates(order, configs)
    ensures DecodeConf(SubmitArgs(version, order, configs, username, pluginPath)) == configs
            <==> forall key | key in configs :: '=' !in key
  {
    DecodeSubmitArgs(version, order, configs, username, pluginPath);
    if forall key | key in configs :: '=' !in key {
      DecodeConfArgs(order, configs);
      assert configs == map key | key in order :: configs[key];
    } else {
      DecodedKeysPlain(ConfArgs(order, configs));
    }
  }

  // ----- What each flag is given -----

  /** The values of a flag, read pair by pair. */
  function FlagValues(args: seq<string>, flag: string): seq<string> {
    if |args| < 2 then []
    else (if args[0] == flag then [args[1]] else []) + FlagValues(args[2..], flag)
  }

  lemma {:induction false} FlagValuesConcat(a: seq<string>, b: seq<string>, flag: string)
    requires |a| % 2 == 0
    ensures FlagValues(a + b, flag) == FlagValues(a, flag) + FlagValues(b, flag)
  {
    if a == [] {
      assert a + b == b;
    } else {
      assert (a + b)[2..] == a[2..] + b;
      FlagValuesConcat(a[2..], b, flag);
    }
  }

  /** The argument texts of the map in the order of the walk. */
  function Arguments(order: seq<string>, configs: Config): seq<string>
    requires forall key | key in order :: key in configs
  {
    seq(|order|, i requires 0 <= i < |order| => assert order[i] in order; order[i] + "=" + configs[order[i]])
  }

  lemma {:induction false} ConfArgsFlags(order: seq<string>, configs: Config, flag: string)
    requires forall key | key in order :: key in configs
    ensures FlagValues(ConfArgs(order, configs), flag) == if flag == "--conf" then Arguments(order, configs) else []
  {
    if order != [] {
      ConfArgsFlags(order[1..], configs, flag);
      assert ConfArgs(order, configs)[2..] == ConfArgs(order[1..], configs);
      assert Arguments(order, configs) == [order[0] + "=" + configs[order[0]]] + Arguments(order[1..], configs);
    }
  }

  lemma {:induction false} OneFlag(name: string, value: Option<string>, flag: string)
    ensures FlagValues(Flag(name, value), flag) == if flag == name && value.Some? then [value.value] else []
    ensures |Flag(name, value)| % 2 == 0
  {
    if value.Some? {
      assert Flag(name, value)[2..] == [];
    }
  }

  /** The values of a flag are those of the segments the arguments are made of. */
  lemma {:induction false} SubmitArgsFlags(
    version: SparkVersion, order: seq<string>, configs: Config, username: string, pluginPath: string, flag: string)
    requires forall key | key in order :: key in configs
    ensures FlagValues(SubmitArgs(version, order, configs, username, pluginPath), flag) ==
            (if flag == "--master" && version.master.Some? then [version.master.value] else [])
            + (if flag == "--deploy-mode" && version.deployMode.Some? then [version.deployMode.value] else [])
            + (if flag == "--conf" then Arguments(order, configs) else [])
            + (if flag == "--class" then [SERVER_CLASS] else [])
            + (if flag == "--proxy-user" && version.proxyUser == Some(true) then [username] else [])
  {
    var user := if version.proxyUser == Some(true) then Some(username) else None;
    var a, b, c := Flag("--master", version.master), Flag("--deploy-mode", version.deployMode), ConfArgs(order, configs);
    var d, e := Flag("--class", Some(SERVER_CLASS)), Flag("--proxy-user", user);
    OneFlag("--master", version.master, flag);
    OneFlag("--deploy-mode", version.deployMode, flag);
    OneFlag("--class", Some(SERVER_CLASS), flag);
    OneFlag("--proxy-user", user, flag);
    ConfArgsFlags(order, configs, flag);
    ConfArgsPairs(order, configs);
    FiveSegments(a, b, c, d, e, pluginPath, flag);
  }

  lemma {:induction false} FiveSegments(
    a: seq<string>, b: seq<string>, c: seq<string>, d: seq<string>, e: seq<string>, last: string, flag: string)
    requires |a| % 2 == |b| % 2 == |c| % 2 == |d| % 2 == |e| % 2 == 0
    ensures FlagValues(a + b + c + d + e + [last], flag)
            == FlagValues(a, flag) + FlagValues(b, flag) + FlagValues(c, flag) + FlagValues(d, flag) + FlagValues(e, flag)
  {
    FlagValuesConcat(a + b + c + d + e, [last], flag);
    FlagValuesConcat(a + b + c + d, e, flag);
    FlagValuesConcat(a + b + c, d, flag);
    FlagValuesConcat(a + b, c, flag);
    FlagValuesConcat(a, b, flag);
  }

  /** The flags are different words. */
  lemma {:induction false} FlagsDistinct()
    ensures "--master" != "--deploy-mode" && "--master" != "--conf" && "--master" != "--class" && "--master" != "--proxy-user"
    ensures "--deploy-mode" != "--conf" && "--deploy-mode" != "--class" && "--deploy-mode" != "--proxy-user"
    ensures "--conf" != "--class" && "--conf" != "--proxy-user" && "--class" != "--proxy-user"
  {
    assert |"--conf"| == 6 && |"--master"| == 8 && |"--deploy-mode"| == 13 && |"--class"| == 7 && |"--proxy-user"| == 12;
  }

  lemma {:induction false} MasterReadBack(
    version: SparkVersion, order: seq<string>, configs: Config, username: string, pluginPath: string)
    requires forall key | key in order :: key in configs
    ensures FlagValues(SubmitArgs(version, order, configs, username, pluginPath), "--master") ==
            if version.master.Some? then [version.master.value] else []
  {
    FlagsDistinct();
    SubmitArgsFlags(version, order, configs, username, pluginPath, "--master");
  }

  lemma {:induction false} DeployModeReadBack(
    version: SparkVersion, order: seq<string>, configs: Config, username: string, pluginPath: string)
    requires forall key | key in order :: key in configs
    ensures FlagValues(SubmitArgs(version, order, configs, username, pluginPath), "--deploy-mode") ==
            if version.deployMode.Some? then [version.deployMode.value] else []
  {
    FlagsDistinct();
    SubmitArgsFlags(version, order, configs, username, pluginPath, "--deploy-mode");
  }

  lemma {:induction false} ConfReadBack(
    version: SparkVersion, order: seq<string>, configs: Config, username: string, pluginPath: string)
    requires forall key | key in order :: key in configs
    ensures FlagValues(SubmitArgs(version, order, configs, username, pluginPath), "--conf") ==
            Arguments(order, configs)
  {
    FlagsDistinct();
    SubmitArgsFlags(version, order, configs, username, pluginPath, "--conf");
  }

  lemma {:induction false} ClassReadBack(
    version: SparkVersion, order: seq<string>, configs: Config, username: string, pluginPath: string)
    requires forall key | key in order :: key in configs
    ensures FlagValues(SubmitArgs(version, order, configs, username, pluginPath), "--class") ==
            [SERVER_CLASS]
  {
    FlagsDistinct();
    SubmitArgsFlags(version, order, configs, username, pluginPath, "--class");
  }

  lemma {:induction false} ProxyUserReadBack(
    version: SparkVersion, order: seq<string>, configs: Config, username: string, pluginPath: string)
    requires forall key | key in order :: key in configs
    ensures FlagValues(SubmitArgs(version, order, configs, username, pluginPath), "--proxy-user") ==
            if version.proxyUser == Some(true) then [username] else []
  {
    FlagsDistinct();
    SubmitArgsFlags(version, order, configs, username, pluginPath, "--proxy-user");
  }

  /** Each flag has exactly the values it should have, whatever the walk of the map. */
  lemma {:induction false} FlagsReadBack(
    version: SparkVersion, order: seq<string>, configs: Config, username: string, pluginPath: string)
    requires forall key | key in order :: key in configs
    ensures var args := SubmitArgs(version, order, configs, username, pluginPath);
            && FlagValues(args, "--master") == (if version.master.Some? then [version.master.value] else [])
            && FlagValues(args, "--deploy-mode") == (if version.deployMode.Some? then [version.deployMode.value] else [])
            && FlagValues(args, "--conf") == Arguments(order, configs)
            && FlagValues(args, "--class") == ["org.apache.spark.sql.sparkplug.SparkPlugServer"]
            && FlagValues(args, "--proxy-user") == (if version.proxyUser == Some(true) then [username] else [])
  {
    MasterReadBack(version, order, configs, username, pluginPath);
    DeployModeReadBack(version, order, configs, username, pluginPath);
    ConfReadBack(version, order, configs, username, pluginPath);
    ClassReadBack(version, order, configs, username, pluginPath);
    ProxyUserReadBack(version, order, configs, username, pluginPath);
  }

  // ----- Whether the internal keys survive -----

  /** The argument of the key would be cut as an argument of `read`. */
  predicate Claims(key: string, read: string) {
    key == read || StartsWith(key, read + "=")
  }

  function Argument(key: string, configs: Config): string
    requires key in configs
  {
    key + "=" + configs[key]
  }

  /** Cutting at the first `=` gives the key itself, or a key that it extends. */
  lemma {:induction false} CutAt(key: string, value: string, read: string)
    requires '=' !in read
    ensures var pair := SplitOnce(key + "=" + value, '=');
            pair.Some? && (pair.value.0 == read <==> Claims(key, read))
                       && (Claims(key, read) ==> key + "=" + value == read + "=" + pair.value.1)
  {
    var text := key + "=" + value;
    assert text[|key|] == '=';
    SplitOnceExact(text, '=', "", "");
    var pair := SplitOnce(text, '=').value;
    SplitOnceExact(text, '=', pair.0, pair.1);
    if StartsWith(key, read + "=") {
      assert text == read + "=" + text[|read| + 1..];
      SplitOnceExact(text, '=', read, text[|read| + 1..]);
    }
    if key == read {
      SplitOnceExact(text, '=', read, value);
    }
    if pair.0 == read {
      assert text[|read|] == '=' && text[..|read|] == read;
      assert forall i | 0 <= i < |read| :: text[i] == read[i];
      assert |key| >= |read|;
      assert key == text[..|key|];
    }
  }

  /** What is read for a key is the text of an argument that claims it, if there is one. */
  lemma {:induction false} ReadFromClaims(order: seq<string>, configs: Config, read: string)
    requires (forall key | key in order :: key in configs) && '=' !in read
    ensures var found := Lookup(DecodeConf(ConfArgs(order, configs)), read);
            && (found.Some? <==> exists key :: key in order && Claims(key, read))
            && (found.Some? ==> exists key :: key in order && Claims(key, read) && Argument(key, configs) == read + "=" + found.value)
  {
    if order != [] {
      var key, rest := order[0], order[1..];
      assert order == [key] + rest;
      assert ConfArgs(order, configs)[2..] == ConfArgs(rest, configs);
      ReadFromClaims(rest, configs, read);
      CutAt(key, configs[key], read);
    }
  }

  /** The last argument that claims the key wins. */
  lemma {:induction false} LastClaimWins(order: seq<string>, last: string, configs: Config, read: string)
    requires (forall key | key in order + [last] :: key in configs) && '=' !in read && Claims(last, read)
    ensures last in configs
    ensures var found := Lookup(DecodeConf(ConfArgs(order + [last], configs)), read);
            found.Some? && Argument(last, configs) == read + "=" + found.value
  {
    assert last in order + [last];
    ConfArgsPairs(order, configs);
    ConfArgsConcat(order, [last], configs);
    DecodeConcat(ConfArgs(order, configs), ConfArgs([last], configs));
    ReadFromClaims([last], configs, read);
    assert Claims(last, read) && last in [last];
  }

  /** A map can be walked so that any key of it comes last. */
  lemma {:induction false} WalkWithLast(configs: Config, last: string) returns (order: seq<string>)
    requires last in configs
    ensures Enumerates(order + [last], configs)
  {
    order := WalkOf(configs.Keys - {last});
  }

  lemma {:induction false} WalkOf(keys: set<string>) returns (order: seq<string>)
    ensures forall key :: key in order <==> key in keys
    ensures forall i, j | 0 <= i < j < |order| :: order[i] != order[j]
    decreases keys
  {
    if keys == {} {
      order := [];
    } else {
      var key :| key in keys;
      order := WalkOf(keys - {key});
      order := order + [key];
    }
  }

  /** `spark-submit` reads the value of the map for the key, whatever the order of the walk. */
  ghost predicate ReadBack(version: SparkVersion, configs: Config, username: string, pluginPath: string, key: string) {
    forall order | Enumerates(order, configs) ::
      Lookup(DecodeConf(SubmitArgs(version, order, configs, username, pluginPath)), key) == Lookup(configs, key)
  }

  /** Every argument that is cut as one of the key is the same text. */
  predicate ClaimsAgree(configs: Config, read: string)
    requires read in configs
  {
    forall key | key in configs && StartsWith(key, read + "=") :: Argument(key, configs) == Argument(read, configs)
  }

  /** A key without `=` is read back in every order exactly when the arguments that claim it agree. */
  lemma {:induction false} ReadBackExactly(version: SparkVersion, configs: Config, username: string, pluginPath: string, read: string)
    requires read in configs && '=' !in read
    ensures ReadBack(version, configs, username, pluginPath, read) <==> ClaimsAgree(configs, read)
  {
    if ClaimsAgree(configs, read) {
      forall order | Enumerates(order, configs)
        ensures Lookup(DecodeConf(SubmitArgs(version, order, configs, username, pluginPath)), read) == Lookup(configs, read)
      {
        DecodeSubmitArgs(version, order, configs, username, pluginPath);
        ReadFromClaims(order, configs, read);
        assert read in order && Claims(read, read);
        var found := Lookup(DecodeConf(ConfArgs(order, configs)), read);
        assert Argument(read, configs) == read + "=" + found.value;
        SameTail(read + "=", configs[read], found.value);
      }
    } else {
      var key :| key in configs && StartsWith(key, read + "=") && Argument(key, configs) != Argument(read, configs);
      var front := WalkWithLast(configs, key);
      DecodeSubmitArgs(version, front + [key], configs, username, pluginPath);
      LastClaimWins(front, key, configs, read);
    }
  }

  lemma {:induction false} SameTail(front: string, a: string, b: string)
    requires front + a == front + b
    ensures a == b
  {
    assert a == (front + a)[|front|..] && b == (front + b)[|front|..];
  }

  /** The keys of the server contain no `=`, and neither does the timeout. */
  lemma {:induction false} InternalPlain(launcher: SparkLauncher, launch: Launch, key: string)
    requires Internal(launcher, launch, key).Some?
    ensures '=' !in key
    ensures key == TIMEOUT_CONFIG ==> '=' !in Internal(launcher, launch, key).value
  {
    DecimalDigits(launcher.sessionTimeout);
    assert '=' !in TOKEN_CONFIG && '=' !in CALLBACK_CONFIG && '=' !in TIMEOUT_CONFIG;
    assert '=' !in LISTENER_CONFIG && '=' !in INTERCEPTOR_CONFIG && '=' !in GRPC_PORT_CONFIG;
  }

  /** The final map of a launch. */
  ghost predicate IsFinal(launcher: SparkLauncher, version: SparkVersion, launch: Launch, configs: Config) {
    forall key :: Lookup(configs, key) == FinalAt(launcher, version, launch, key)
  }

  /** No layer sets a key that begins with the given key and an equals sign. */
  ghost predicate NoClash(version: SparkVersion, user: Config, key: string) {
    forall clash :: StartsWith(clash, key + "=") ==> Layered(version, user, clash).None?
  }

  /** A key that clashes with an internal one contains `=`, so the server writes it nowhere. */
  lemma {:induction false} ClashIsLayered(launcher: SparkLauncher, version: SparkVersion, launch: Launch, key: string, clash: string)
    requires StartsWith(clash, key + "=")
    ensures FinalAt(launcher, version, launch, clash) == Layered(version, launch.userConfig, clash)
  {
    assert clash[|key|] == '=';
    if Internal(launcher, launch, clash).Some? {
      InternalPlain(launcher, launch, clash);
    }
    assert '=' !in PYTHON_CONFIG && '=' !in ARCHIVES && '=' !in APP_NAME_CONFIG;
  }

  /**
   The six internal keys. Their place in the map is safe, but what `spark-submit` reads is
   not: a value without an equals sign, as all but a callback address always are, is read in
   every order if and only if no layer sets a key that begins with the internal key and an
   equals sign. `ReadBackExactly` is the condition for any value.
   */
  lemma {:induction false} InternalKeyReadBack(
    launcher: SparkLauncher, version: SparkVersion, launch: Launch, configs: Config, key: string)
    requires IsFinal(launcher, version, launch, configs)
    requires Internal(launcher, launch, key).Some? && '=' !in Internal(launcher, launch, key).value
    ensures Lookup(configs, key) == Internal(launcher, launch, key)
    ensures ReadBack(version, configs, launch.username, launcher.pluginPath, key)
            <==> NoClash(version, launch.userConfig, key)
  {
    var value := Internal(launcher, launch, key).value;
    assert Lookup(configs, key) == FinalAt(launcher, version, launch, key);
    InternalPlain(launcher, launch, key);
    ReadBackExactly(version, configs, launch.username, launcher.pluginPath, key);
    forall clash | StartsWith(clash, key + "=")
      ensures clash in configs <==> Layered(version, launch.userConfig, clash).Some?
      ensures clash in configs ==> Argument(clash, configs) != Argument(key, configs)
    {
      ClashIsLayered(launcher, version, launch, key, clash);
      assert Lookup(configs, clash) == FinalAt(launcher, version, launch, clash);
      if clash in configs {
        OneMoreEquals(clash, configs[clash], key, value);
      }
    }
  }

  lemma {:induction false} OneMoreEquals(clash: string, other: string, key: string, value: string)
    requires StartsWith(clash, key + "=") && '=' !in value
    ensures clash + "=" + other != key + "=" + value
  {
    var text := clash + "=" + other;
    assert text[|key| + 1..][|clash| - |key| - 1] == '=';
    assert (key + "=" + value)[|key| + 1..] == value;
  }

  /** A key that begins with `read` and an equals sign takes its place when it comes last. */
  lemma {:induction false} ClashWins(
    version: SparkVersion, configs: Config, username: string, pluginPath: string, read: string, suffix: string)
    returns (order: seq<string>)
    requires '=' !in read && read + "=" + suffix in configs
    ensures Enumerates(order, configs)
    ensures Lookup(DecodeConf(SubmitArgs(version, order, configs, username, pluginPath)), read)
            == Some(suffix + "=" + configs[read + "=" + suffix])
  {
    var clash := read + "=" + suffix;
    var front := WalkWithLast(configs, clash);
    order := front + [clash];
    LastClaimWins(front, clash, configs, read);
    DecodeSubmitArgs(version, order, configs, username, pluginPath);
    var found := Lookup(DecodeConf(ConfArgs(order, configs)), read).value;
    assert Argument(clash, configs) == read + "=" + (suffix + "=" + configs[clash]);
    SameTail(read + "=", suffix + "=" + configs[clash], found);
  }

  /** The failing input: this key of a user makes the driver read a token that is not its own. */
  lemma {:induction false} TokenClash(launcher: SparkLauncher, version: SparkVersion, launch: Launch, configs: Config)
    returns (order: seq<string>)
    requires IsFinal(launcher, version, launch, configs)
    requires version.mergeConfigs.None? && version.overrideConfigs.None?
    requires launch.userConfig == map[TOKEN_CONFIG + "=" + "x" := "y"]
    ensures Enumerates(order, configs) && Lookup(configs, TOKEN_CONFIG) == Some(launch.token)
    ensures Lookup(DecodeConf(SubmitArgs(version, order, configs, launch.username, launcher.pluginPath)), TOKEN_CONFIG)
            == Some("x" + "=" + "y")
  {
    var clash := TOKEN_CONFIG + "=" + "x";
    ClashIsLayered(launcher, version, launch, TOKEN_CONFIG, clash);
    assert Lookup(configs, clash) == FinalAt(launcher, version, launch, clash);
    assert Lookup(configs, TOKEN_CONFIG) == FinalAt(launcher, version, launch, TOKEN_CONFIG);
    InternalPlain(launcher, launch, TOKEN_CONFIG);
    order := ClashWins(version, configs, launch.username, launcher.pluginPath, TOKEN_CONFIG, "x");
  }

  /** So the driver reads the idle timeout of the server as a number, unless such a key is set. */
  lemma {:induction false} TimeoutReadBack(
    launcher: SparkLauncher, version: SparkVersion, launch: Launch, configs: Config, order: seq<string>)
    requires IsFinal(launcher, version, launch, configs) && Enumerates(order, configs)
    requires NoClash(version, launch.userConfig, TIMEOUT_CONFIG)
    ensures var read := DecodeConf(SubmitArgs(version, order, configs, launch.username, launcher.pluginPath));
            TIMEOUT_CONFIG in read && ParseDecimal(read[TIMEOUT_CONFIG]) == launcher.sessionTimeout
  {
    KeysDistinct();
    InternalPlain(launcher, launch, TIMEOUT_CONFIG);
    InternalKeyReadBack(launcher, version, launch, configs, TIMEOUT_CONFIG);
    DecimalRoundTrip(launcher.sessionTimeout);
  }

  // ----- File lists -----

  /**
   For a checked key no override touches, the list given to Spark is what the user
   (or else the default) listed, then what the version adds, then the environment.
   What comes from the user has passed the validation, entry by entry. The environment
   adds no empty entry, unless its path begins with a comma or has two in a row.
   */
  lemma {:induction false} FileListClosedForm(launcher: SparkLauncher, version: SparkVersion, launch: Launch, key: string)
    requires key in FILE_KEYS && key !in OrEmpty(version.overrideConfigs)
    requires forall k | k in FILE_KEYS :: AllAccepted(Entries(launch.userConfig, k))
    ensures var base := UserOrDefault(version, launch.userConfig, key);
            var baseEntries := if base.Some? then Split(base.value, ',') else [];
            var merges := Entries(OrEmpty(version.mergeConfigs), key);
            var layered := Layered(version, launch.userConfig, key);
            var added := if launch.venvTarball.Some? && key == ARCHIVES
                         then Split(VenvArchive(launch.venvTarball.value), ',') else [];
            var final := FinalAt(launcher, version, launch, key);
            && (layered.Some? ==> Split(layered.value, ',') == baseEntries + merges)
            && (layered.None? ==> baseEntries + merges == [])
            && (final.Some? ==> Split(final.value, ',') ==
                                if layered == Some("") && added != [] then added else baseEntries + merges + added)
            && (final.None? ==> baseEntries + merges + added == [])
            && (key in launch.userConfig ==> AllAccepted(baseEntries))
            && ("" in added <==> added != [] && !CleanTarball(launch.venvTarball.value))
  {
    FileKeysAreOrdinary(launcher, launch, key);
    var base := UserOrDefault(version, launch.userConfig, key);
    var merges := OrEmpty(version.mergeConfigs);
    if base.Some? && key in merges {
      SplitConcat(base.value, merges[key], ',');
    }
    var layered := Layered(version, launch.userConfig, key);
    if layered.Some? && launch.venvTarball.Some? {
      SplitConcat(layered.value, VenvArchive(launch.venvTarball.value), ',');
    }
    if key in launch.userConfig {
      assert Entries(launch.userConfig, key) == Split(launch.userConfig[key], ',');
    }
    if launch.venvTarball.Some? {
      ArchiveEntries(launch.venvTarball.value);
    }
  }

  predicate CleanTarball(tarball: string) {
    !StartsWith(tarball, ",") && !Contains(tarball, ",,")
  }

  lemma {:induction false} ArchiveEntries(tarball: string)
    ensures "" in Split(VenvArchive(tarball), ',') <==> !CleanTarball(tarball)
  {
    var archive, n := VenvArchive(tarball), |tarball|;
    assert forall i | n <= i < |archive| :: archive[i] != ',' by {
      assert ',' !in "#environment";
      assert archive[n..] == "#environment";
    }
    EmptyPart(archive, ',');
    assert [',', ','] == ",,";
    if Contains(archive, ",,") {
      var i :| 0 <= i <= |archive| && ",," <= archive[i..];
      assert archive[i..][0] == ',' && archive[i..][1] == ',';
      assert i + 1 < n && tarball[i..] <= archive[i..];
    }
    if Contains(tarball, ",,") {
      var i :| 0 <= i <= n && ",," <= tarball[i..];
      assert tarball[i..] <= archive[i..];
    }
  }

  lemma {:induction false} FileKeysAreOrdinary(launcher: SparkLauncher, launch: Launch, key: string)
    requires key in FILE_KEYS
    ensures Internal(launcher, launch, key).None? && key != PYTHON_CONFIG && key != APP_NAME_CONFIG
  {
    KeysDistinct();
    assert |FILES| == 11 && |PY_FILES| == 20;
    assert PY_FILES[6] == 's' && LISTENER_CONFIG[6] == 'e';
    assert |TOKEN_CONFIG| == 32 && |CALLBACK_CONFIG| == 19 && |TIMEOUT_CONFIG| == 23 && |APP_NAME_CONFIG| == 14;
    assert |INTERCEPTOR_CONFIG| == 38 && |GRPC_PORT_CONFIG| == 31 && |PYTHON_CONFIG| == 34;
  }
}
