/** The layered launch configuration and its validation (server/src/launcher.rs). */
module Launcher {
  import opened Wrappers
  import opened Text

  type Config = map<string, string>

  datatype SparkVersion = SparkVersion(
    master: Option<string>,
    deployMode: Option<string>,
    proxyUser: Option<bool>,
    defaultConfigs: Option<Config>,
    mergeConfigs: Option<Config>,
    overrideConfigs: Option<Config>
  )

  function OrEmpty(configs: Option<Config>): Config {
    match configs
    case Some(c) => c
    case None => map[]
  }

  function Lookup(configs: Config, key: string): Option<string> {
    if key in configs then Some(configs[key]) else None
  }

  // ----- Layering -----

  /** What the user chose for the key, else the default of the version. */
  function UserOrDefault(version: SparkVersion, user: Config, key: string): Option<string> {
    if key in user then Some(user[key]) else Lookup(OrEmpty(version.defaultConfigs), key)
  }

  function Merged(base: Option<string>, addition: string): string {
    match base
    case Some(existing) => existing + "," + addition
    case None => addition
  }

  /** The value a key must end with, said key by key and without any iteration. */
  function Layered(version: SparkVersion, user: Config, key: string): Option<string> {
    var overrides, merges := OrEmpty(version.overrideConfigs), OrEmpty(version.mergeConfigs);
    if key in overrides then Some(overrides[key])
    else if key in merges then Some(Merged(UserOrDefault(version, user, key), merges[key]))
    else UserOrDefault(version, user, key)
  }

  /** The merges have been applied to every key but the remaining ones. */
  ghost predicate MergedExcept(base: Config, merges: Config, remaining: set<string>, configs: Config) {
    forall key ::
      Lookup(configs, key) ==
      if key in merges && key !in remaining then Some(Merged(Lookup(base, key), merges[key])) else Lookup(base, key)
  }

  lemma {:induction false} MergeOne(base: Config, merges: Config, remaining: set<string>, configs: Config, key: string)
    requires MergedExcept(base, merges, remaining, configs)
    requires key in remaining && remaining <= merges.Keys
    ensures MergedExcept(base, merges, remaining - {key}, configs[key := Merged(Lookup(configs, key), merges[key])])
  {
    assert Lookup(configs, key) == Lookup(base, key);
    var next := configs[key := Merged(Lookup(configs, key), merges[key])];
    forall k
      ensures Lookup(next, k) == if k in merges && k !in remaining - {key} then Some(Merged(Lookup(base, k), merges[k])) else Lookup(base, k)
    {
      assert k != key ==> Lookup(next, k) == Lookup(configs, k);
    }
  }

  /**
   `build_conf`. The hash map of merges is walked in an arbitrary order, so the
   postcondition holds for every one.
   */
  method BuildConf(version: SparkVersion, user: Config) returns (configs: Config)
    ensures forall key :: Lookup(configs, key) == Layered(version, user, key)
    ensures var defaults, merges, overrides :=
              OrEmpty(version.defaultConfigs), OrEmpty(version.mergeConfigs), OrEmpty(version.overrideConfigs);
            && (forall key | key in overrides :: key in configs && configs[key] == overrides[key])
            && (forall key | key in user && key !in overrides ::
                  key in configs && configs[key] == if key in merges then user[key] + "," + merges[key] else user[key])
            && (forall key | key in defaults && key !in user && key !in overrides ::
                  key in configs && configs[key] == if key in merges then defaults[key] + "," + merges[key] else defaults[key])
            && (forall key | key in merges && key !in defaults && key !in user && key !in overrides ::
                  key in configs && configs[key] == merges[key])
            && (forall key | key in configs :: key in overrides || key in user || key in defaults || key in merges)
  {
    configs := OrEmpty(version.defaultConfigs);
    configs := configs + user;
    ghost var base := configs;

    if version.mergeConfigs.Some? {
      var merges := version.mergeConfigs.value;
      var remaining := merges.Keys;
      while remaining != {}
        invariant remaining <= merges.Keys
        invariant MergedExcept(base, merges, remaining, configs)
        decreases |remaining|
      {
        var key :| key in remaining;
        MergeOne(base, merges, remaining, configs, key);
        remaining := remaining - {key};
        if key in configs {
          configs := configs[key := configs[key] + "," + merges[key]];
        } else {
          configs := configs[key := merges[key]];
        }
      }
    }

    OverrideLast(version, user, configs);
    if version.overrideConfigs.Some? {
      configs := configs + version.overrideConfigs.value;
    }
    LayeredMeans(version, user, configs);
  }

  /** What each layer says of the keys it has. */
  lemma {:induction false} LayeredMeans(version: SparkVersion, user: Config, configs: Config)
    requires forall key :: Lookup(configs, key) == Layered(version, user, key)
    ensures var defaults, merges, overrides :=
              OrEmpty(version.defaultConfigs), OrEmpty(version.mergeConfigs), OrEmpty(version.overrideConfigs);
            && (forall key | key in overrides :: key in configs && configs[key] == overrides[key])
            && (forall key | key in user && key !in overrides ::
                  key in configs && configs[key] == if key in merges then user[key] + "," + merges[key] else user[key])
            && (forall key | key in defaults && key !in user && key !in overrides ::
                  key in configs && configs[key] == if key in merges then defaults[key] + "," + merges[key] else defaults[key])
            && (forall key | key in merges && key !in defaults && key !in user && key !in overrides ::
                  key in configs && configs[key] == merges[key])
            && (forall key | key in configs :: key in overrides || key in user || key in defaults || key in merges)
  {
    forall key
      ensures key in configs <==> Layered(version, user, key).Some?
      ensures key in configs ==> Some(configs[key]) == Layered(version, user, key)
    {
      assert Lookup(configs, key) == Layered(version, user, key);
    }
  }

  lemma {:induction false} OverrideLast(version: SparkVersion, user: Config, merged: Config)
    requires MergedExcept(OrEmpty(version.defaultConfigs) + user, OrEmpty(version.mergeConfigs), {}, merged)
    ensures forall key :: Lookup(merged + OrEmpty(version.overrideConfigs), key) == Layered(version, user, key)
  {
    var base := OrEmpty(version.defaultConfigs) + user;
    forall key
      ensures Lookup(merged + OrEmpty(version.overrideConfigs), key) == Layered(version, user, key)
    {
      assert Lookup(base, key) == UserOrDefault(version, user, key);
      assert key !in OrEmpty(version.overrideConfigs) ==>
          Lookup(merged + OrEmpty(version.overrideConfigs), key) == Lookup(merged, key);
    }
  }

  /** The pointwise form leaves no freedom: any two walks of the merges give the same map. */
  lemma {:induction false} OrderIndependent(version: SparkVersion, user: Config, first: Config, second: Config)
    requires forall key :: Lookup(first, key) == Layered(version, user, key)
    requires forall key :: Lookup(second, key) == Layered(version, user, key)
    ensures first == second
  {
    assert forall key :: key in first <==> Lookup(first, key).Some?;
    assert forall key :: key in second <==> Lookup(second, key).Some?;
    forall key | key in first
      ensures key in second && first[key] == second[key]
    {
      assert Lookup(first, key) == Lookup(second, key);
    }
    forall key | key in second
      ensures key in first
    {
      assert Lookup(first, key) == Lookup(second, key);
    }
  }

  // ----- Validation -----

  const FILES := "spark.files"
  const ARCHIVES := "spark.archives"
  const PY_FILES := "spark.submit.pyFiles"
  const FILE_KEYS: seq<string> := [FILES, ARCHIVES, PY_FILES]

  /** The checked keys by name, so that none is left out. */
  lemma {:induction false} FileKeys(key: string)
    ensures key in FILE_KEYS <==> key == "spark.files" || key == "spark.archives" || key == "spark.submit.pyFiles"
  {
    assert FILE_KEYS[0] == FILES && FILE_KEYS[1] == ARCHIVES && FILE_KEYS[2] == PY_FILES;
  }

  datatype ConfigError =
    | MissingProtocol(key: string, path: string)  // InvalidInput
    | LocalFile(key: string, path: string)        // PermissionDenied

  /** A path that may be given to Spark: nothing, or a path with a protocol other than `file://`. */
  predicate EntryAccepted(entry: string) {
    var trimmed := Trim(entry);
    trimmed == "" || (Contains(trimmed, "://") && !StartsWith(trimmed, "file://"))
  }

  /** The complaint about an entry that is not accepted. */
  function Complaint(key: string, entry: string): ConfigError {
    var trimmed := Trim(entry);
    if Contains(trimmed, "://") then LocalFile(key, trimmed) else MissingProtocol(key, trimmed)
  }

  function Entries(configs: Config, key: string): seq<string> {
    if key in configs then Split(configs[key], ',') else []
  }

  predicate AllAccepted(entries: seq<string>) {
    forall entry | entry in entries :: EntryAccepted(entry)
  }

  /** Entry `e` of checked key `k` is the first that is refused. */
  predicate FirstRefused(configs: Config, k: nat, e: nat) {
    && k < |FILE_KEYS|
    && e < |Entries(configs, FILE_KEYS[k])|
    && !EntryAccepted(Entries(configs, FILE_KEYS[k])[e])
    && AllAccepted(Entries(configs, FILE_KEYS[k])[..e])
    && forall earlier | 0 <= earlier < k :: AllAccepted(Entries(configs, FILE_KEYS[earlier]))
  }

  /** Whether an entry is accepted, and why not, by what it is between its blanks. */
  lemma {:induction false} AcceptedExactly(entry: string, core: string, key: string)
    requires Stripped(entry, core)
    ensures EntryAccepted(entry) <==> core == "" || (Contains(core, "://") && !("file://" <= core))
    ensures !EntryAccepted(entry) ==>
              Complaint(key, entry) == if "file://" <= core then LocalFile(key, core) else MissingProtocol(key, core)
  {
    TrimExactly(entry, core);
    if "file://" <= core {
      assert "://" <= core[4..];
    }
  }

  /** `validate_file_configs`. */
  method ValidateFileConfigs(configs: Config) returns (r: Result<(), ConfigError>)
    ensures r.Ok? <==>
            forall key, part | key in FILE_KEYS && part in Entries(configs, key) ::
              var core := Trim(part); core == "" || (Contains(core, "://") && !("file://" <= core))
    ensures r.Err? ==>
              exists key, part | key in FILE_KEYS && part in Entries(configs, key) ::
                var core := Trim(part);
                && core != ""
                && (r.error == LocalFile(key, core) ==> "file://" <= core)
                && (r.error == MissingProtocol(key, core) ==> !Contains(core, "://"))
                && (r.error == LocalFile(key, core) || r.error == MissingProtocol(key, core))
    ensures r.Ok? <==> forall key | key in FILE_KEYS :: AllAccepted(Entries(configs, key))
    ensures r.Err? ==>
              exists k: nat, e: nat :: FirstRefused(configs, k, e)
                                       && r.error == Complaint(FILE_KEYS[k], Entries(configs, FILE_KEYS[k])[e])
  {
    for k := 0 to |FILE_KEYS|
      invariant forall j | 0 <= j < k :: AllAccepted(Entries(configs, FILE_KEYS[j]))
    {
      var key := FILE_KEYS[k];
      if key in configs {
        var paths := Split(configs[key], ',');
        for e := 0 to |paths|
          invariant AllAccepted(paths[..e])
        {
          var trimmed := Trim(paths[e]);
          assert paths[..e + 1] == paths[..e] + [paths[e]];
          if trimmed == "" {
            continue;
          }
          if !Contains(trimmed, "://") {
            assert FirstRefused(configs, k, e);
            return Err(MissingProtocol(key, trimmed));
          }
          if StartsWith(trimmed, "file://") {
            assert FirstRefused(configs, k, e);
            return Err(LocalFile(key, trimmed));
          }
        }
        assert paths[..|paths|] == paths;
      }
    }
    return Ok(());
  }
}
