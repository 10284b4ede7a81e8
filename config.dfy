/**
  The filemail `Config` object: a settings store whose keys come from a
  closed schema (three required keys and eighteen optional ones), that can
  locate its `filemail.cfg` file and merge one username-named section of it.
 */
module FilemailConfig {
  import opened Wrappers
  import opened Paths
  import opened Values

  const RequiredKeys: seq<string> := ["apikey", "password", "username"]

  const OptionalKeys: seq<string> := [
    "country", "created", "defaultconfirmation", "defaultdays",
    "defaultdownloads", "defaultnotify", "defaultsubject", "email",
    "logintoken", "maxdays", "maxdownloads", "maxtransfersize",
    "membershipname", "name", "newsletter", "signature", "source",
    "subscription"
  ]

  const ValidKeys: seq<string> := RequiredKeys + OptionalKeys

  /** The name every candidate configuration file must have. */
  const ConfigFileName: string := "filemail.cfg"

  /** `validKey`: membership in the schema. */
  predicate ValidKey(key: string)
    ensures ValidKey(key) <==> IsRequired(key) || key in OptionalKeys
  {
    key in ValidKeys
  }

  predicate IsRequired(key: string)
  {
    key in RequiredKeys
  }

  /** The schema really is three required keys plus eighteen optional ones, all distinct. */
  lemma Schema()
    ensures |RequiredKeys| == 3 && |OptionalKeys| == 18
    ensures forall k :: k in RequiredKeys ==> k !in OptionalKeys
    ensures forall i, j :: 0 <= i < j < |ValidKeys| ==> ValidKeys[i] != ValidKeys[j]
    ensures forall k :: IsRequired(k) ==> ValidKey(k)
  {
  }

  datatype ConfigError =
    | InvalidKey(key: string)       // AttributeError: key outside the schema
    | RequiredIsNull(key: string)   // FMConfigError: None for a required key
    | Unreadable(path: string)      // IOError: the cached file cannot be opened

  /** The store's invariant: only schema keys, and no required key holding `None`. */
  predicate ConformsToSchema(m: map<string, Value>)
  {
    forall k :: k in m ==> ValidKey(k) && (IsRequired(k) ==> m[k] != Null)
  }

  /** The error `set(key, value)` raises, if any; it depends on the key and value only. */
  function Rejection(key: string, value: Value): (e: Option<ConfigError>)
    ensures e == None <==> ValidKey(key) && !(IsRequired(key) && value == Null)
  {
    if !ValidKey(key) then Some(InvalidKey(key))
    else if IsRequired(key) && value == Null then Some(RequiredIsNull(key))
    else None
  }

  /** The effect of `set(key, value)` on the stored mapping. */
  function Assign(m: map<string, Value>, key: string, value: Value): (r: Result<map<string, Value>, ConfigError>)
    ensures !ValidKey(key) ==> r == Failure(InvalidKey(key))
    ensures ValidKey(key) && IsRequired(key) && value == Null ==> r == Failure(RequiredIsNull(key))
    ensures ValidKey(key) && !IsRequired(key) ==> r.Success?
    ensures r.Success? <==> Rejection(key, value) == None
    ensures r.Success? ==> Lookup(r.value, key) == value
    ensures r.Success? ==> forall k :: k != key ==> Lookup(r.value, k) == Lookup(m, k)
    ensures r.Success? ==> r.value.Keys == m.Keys + {key}
    ensures r.Success? && ConformsToSchema(m) ==> ConformsToSchema(r.value)
  {
    match Rejection(key, value)
    case Some(e) => Failure(e)
    case None => Success(m[key := value])
  }

  /** What a run of `set` calls over `entries`, stopping at the first error, leaves behind. */
  datatype Merge = Merge(config: map<string, Value>, failure: Option<ConfigError>)

  /** `update(entries)`: `set` each entry in turn; the first error stops the run, earlier ones stay. */
  function Apply(m: map<string, Value>, entries: seq<(string, Value)>): (r: Merge)
    ensures m.Keys <= r.config.Keys
    ensures ConformsToSchema(m) ==> ConformsToSchema(r.config)
    decreases |entries|
  {
    if entries == [] then Merge(m, None)
    else match Assign(m, entries[0].0, entries[0].1)
      case Failure(e) => Merge(m, Some(e))
      case Success(m') => Apply(m', entries[1..])
  }

  /** The first error among `entries`, independent of the stored mapping. */
  function FirstRejection(entries: seq<(string, Value)>): Option<ConfigError>
    decreases |entries|
  {
    if entries == [] then None
    else match Rejection(entries[0].0, entries[0].1)
      case Some(e) => Some(e)
      case None => FirstRejection(entries[1..])
  }

  /** The value each key is last given by the entries before the first rejected one. */
  function LastWrites(entries: seq<(string, Value)>): (w: map<string, Value>)
    ensures forall k :: k in w ==> exists i :: 0 <= i < |entries| && entries[i].0 == k
    decreases |entries|
  {
    if entries == [] || Rejection(entries[0].0, entries[0].1).Some? then map[]
    else map[entries[0].0 := entries[0].1] + LastWrites(entries[1..])
  }

  /** `update` is the old mapping overlaid with the accepted entries' last writes. */
  lemma {:induction false} ApplyIsOverlay(m: map<string, Value>, entries: seq<(string, Value)>)
    ensures Apply(m, entries) == Merge(m + LastWrites(entries), FirstRejection(entries))
    decreases |entries|
  {
    if entries == [] {
      assert m + map[] == m;
    } else {
      var (k, v) := entries[0];
      match Rejection(k, v)
      case Some(e) =>
        assert Apply(m, entries) == Merge(m, Some(e));
        assert m + map[] == m;
      case None =>
        var rest := entries[1..];
        assert Apply(m, entries) == Apply(m[k := v], rest);
        assert LastWrites(entries) == map[k := v] + LastWrites(rest);
        ApplyIsOverlay(m[k := v], rest);
        OverlayAfterUpdate(m, k, v, LastWrites(rest));
    }
  }

  lemma OverlayAfterUpdate(m: map<string, Value>, k: string, v: Value, w: map<string, Value>)
    ensures m[k := v] + w == m + (map[k := v] + w)
  {
  }

  /** Applying the same bulk update twice leaves the same state, and the same error, as once. */
  lemma ApplyIdempotent(m: map<string, Value>, entries: seq<(string, Value)>)
    ensures Apply(Apply(m, entries).config, entries) == Apply(m, entries)
  {
    var w := LastWrites(entries);
    ApplyIsOverlay(m, entries);
    ApplyIsOverlay(m + w, entries);
    assert (m + w) + w == m + w;
  }

  /** A bulk update is all-or-nothing per entry: it fails exactly when some entry is rejected. */
  lemma {:induction false} ApplyFailsIffSomeRejected(m: map<string, Value>, entries: seq<(string, Value)>)
    ensures Apply(m, entries).failure == None <==>
            forall i :: 0 <= i < |entries| ==> Rejection(entries[i].0, entries[i].1) == None
    decreases |entries|
  {
    ApplyIsOverlay(m, entries);
    FirstRejectionNone(entries);
  }

  lemma {:induction false} FirstRejectionNone(entries: seq<(string, Value)>)
    ensures FirstRejection(entries) == None <==>
            forall i :: 0 <= i < |entries| ==> Rejection(entries[i].0, entries[i].1) == None
    decreases |entries|
  {
    if entries != [] {
      FirstRejectionNone(entries[1..]);
      assert forall i :: 1 <= i < |entries| ==> entries[i] == entries[1..][i - 1];
    }
  }

  /**
    Best effort: when entry `i` is the first rejected one, the state is exactly
    that of applying the entries before it, and its error is reported.
   */
  lemma {:induction false} ApplyStopsAtFirstRejection(m: map<string, Value>, entries: seq<(string, Value)>, i: nat)
    requires i < |entries| && Rejection(entries[i].0, entries[i].1).Some?
    requires forall j :: 0 <= j < i ==> Rejection(entries[j].0, entries[j].1) == None
    ensures Apply(m, entries) == Merge(Apply(m, entries[..i]).config, Rejection(entries[i].0, entries[i].1))
    decreases i
  {
    if i > 0 {
      var (k, v) := entries[0];
      assert Rejection(k, v) == None;
      var rest := entries[1..];
      assert rest[i - 1] == entries[i];
      assert forall j :: 0 <= j < i - 1 ==> rest[j] == entries[j + 1];
      ApplyStopsAtFirstRejection(m[k := v], rest, i - 1);
      assert entries[..i][1..] == rest[..i - 1];
    }
  }

  /** Keys no entry mentions keep their value, whatever the outcome. */
  lemma ApplyFrame(m: map<string, Value>, entries: seq<(string, Value)>, key: string)
    requires forall i :: 0 <= i < |entries| ==> entries[i].0 != key
    ensures Lookup(Apply(m, entries).config, key) == Lookup(m, key)
  {
    ApplyIsOverlay(m, entries);
  }

  /** Each entry's key holds the entry's value after a bulk update in which each key occurs once and all are accepted. */
  lemma ApplyThenGet(m: map<string, Value>, entries: seq<(string, Value)>, i: nat)
    requires i < |entries|
    requires forall j :: 0 <= j < |entries| ==> Rejection(entries[j].0, entries[j].1) == None
    requires forall j, l :: 0 <= j < l < |entries| ==> entries[j].0 != entries[l].0
    ensures Apply(m, entries).failure == None
    ensures Lookup(Apply(m, entries).config, entries[i].0) == entries[i].1
  {
    ApplyIsOverlay(m, entries);
    FirstRejectionNone(entries);
    LastWritesAt(entries, i);
  }

  lemma {:induction false} LastWritesAt(entries: seq<(string, Value)>, i: nat)
    requires i < |entries|
    requires forall j :: 0 <= j < |entries| ==> Rejection(entries[j].0, entries[j].1) == None
    requires forall j, l :: 0 <= j < l < |entries| ==> entries[j].0 != entries[l].0
    ensures entries[i].0 in LastWrites(entries) && LastWrites(entries)[entries[i].0] == entries[i].1
    decreases |entries|
  {
    var rest := entries[1..];
    assert forall j :: 0 <= j < |rest| ==> rest[j] == entries[j + 1];
    if i == 0 {
      assert entries[0].0 !in LastWrites(rest);
    } else {
      LastWritesAt(rest, i - 1);
    }
  }

  /** A configuration file's parsed sections: section name to its (key, value) items in iteration order. */
  type Sections = map<string, seq<(string, string)>>

  /** The files `os.path.isfile` accepts, each with what `ConfigParser` reads from it. */
  datatype FileSystem = FileSystem(files: map<string, Sections>)

  /**
    What `_locateConfig` reads from the process: the `FILEMAIL_CONFIG_FILE`
    variable, the parent of the package's directory, and the home directory.
   */
  datatype Environment = Environment(configFileVar: Option<string>, installDir: string, home: string)

  /** The three candidate paths in priority order; an unset variable reads as "". */
  function Candidates(env: Environment): seq<string>
  {
    [env.configFileVar.GetOr(""), Join(env.installDir, ConfigFileName), Join(env.home, ConfigFileName)]
  }

  /** A candidate is taken when it is a file whose basename is `filemail.cfg`. */
  predicate Qualifies(fs: FileSystem, path: string)
  {
    path in fs.files && Basename(path) == ConfigFileName
  }

  /** The first qualifying path of `paths`, if any. */
  function FirstQualifying(fs: FileSystem, paths: seq<string>): Option<string>
    decreases |paths|
  {
    if paths == [] then None
    else if Qualifies(fs, paths[0]) then Some(paths[0])
    else FirstQualifying(fs, paths[1..])
  }

  /** The search returns a qualifying path that no earlier path beats, or nothing when none qualifies. */
  lemma {:induction false} FirstQualifyingIsFirst(fs: FileSystem, paths: seq<string>)
    ensures FirstQualifying(fs, paths).None? <==> forall i :: 0 <= i < |paths| ==> !Qualifies(fs, paths[i])
    ensures FirstQualifying(fs, paths).Some? ==>
              exists i :: 0 <= i < |paths| && paths[i] == FirstQualifying(fs, paths).value &&
                          Qualifies(fs, paths[i]) &&
                          forall j :: 0 <= j < i ==> !Qualifies(fs, paths[j])
    decreases |paths|
  {
    if paths == [] {
    } else if Qualifies(fs, paths[0]) {
      assert FirstQualifying(fs, paths) == Some(paths[0]);
    } else {
      var rest := paths[1..];
      assert FirstQualifying(fs, paths) == FirstQualifying(fs, rest);
      FirstQualifyingIsFirst(fs, rest);
      assert forall i :: 1 <= i < |paths| ==> paths[i] == rest[i - 1];
      if FirstQualifying(fs, rest).Some? {
        var i :| 0 <= i < |rest| && rest[i] == FirstQualifying(fs, rest).value &&
                 Qualifies(fs, rest[i]) && forall j :: 0 <= j < i ==> !Qualifies(fs, rest[j]);
        assert paths[i + 1] == rest[i];
        assert forall j :: 0 <= j < i + 1 ==> !Qualifies(fs, paths[j]);
      }
    }
  }

  /**
    The installation-relative and home candidates qualify exactly when they
    exist; only the variable's path can exist and still be passed over.
   */
  lemma JoinedCandidatesNeedOnlyExist(fs: FileSystem, env: Environment)
    ensures Qualifies(fs, Candidates(env)[1]) <==> Candidates(env)[1] in fs.files
    ensures Qualifies(fs, Candidates(env)[2]) <==> Candidates(env)[2] in fs.files
  {
    BasenameOfJoin(env.installDir, ConfigFileName);
    BasenameOfJoin(env.home, ConfigFileName);
  }

  /**
    The search order in full: the variable's path if it is a file named
    `filemail.cfg`, else the installation-relative file if it exists, else
    the home file if it exists, else nothing.
   */
  lemma SearchOrder(fs: FileSystem, env: Environment)
    ensures var fromVar := env.configFileVar.GetOr("");
            var installed := Join(env.installDir, ConfigFileName);
            var inHome := Join(env.home, ConfigFileName);
            FirstQualifying(fs, Candidates(env)) ==
              if Qualifies(fs, fromVar) then Some(fromVar)
              else if installed in fs.files then Some(installed)
              else if inHome in fs.files then Some(inHome)
              else None
  {
    JoinedCandidatesNeedOnlyExist(fs, env);
    var c := Candidates(env);
    assert c[1..][1..] == [c[2]];
    assert FirstQualifying(fs, [c[2]]) == if Qualifies(fs, c[2]) then Some(c[2]) else None;
  }

  /** Values read from disk are strings. */
  function AsValues(items: seq<(string, string)>): (entries: seq<(string, Value)>)
    ensures |entries| == |items|
    ensures forall i :: 0 <= i < |items| ==> entries[i] == (items[i].0, Text(items[i].1))
  {
    seq(|items|, i requires 0 <= i < |items| => (items[i].0, Text(items[i].1)))
  }

  /** What `load` does to the mapping `m` once the file to read, if any, is known. */
  function Loaded(m: map<string, Value>, file: Option<string>, fs: FileSystem): Merge
  {
    match file
    case None => Merge(m, None)
    case Some(path) =>
      if path !in fs.files then Merge(m, Some(Unreadable(path)))
      else
        var username := Lookup(m, "username");
        if username.Text? && username.s in fs.files[path] then Apply(m, AsValues(fs.files[path][username.s]))
        else Merge(m, None)
  }

  /** Disk data are strings, so loading can only fail on an unknown key or an unreadable file. */
  lemma LoadedNeverNullsRequired(m: map<string, Value>, file: Option<string>, fs: FileSystem)
    ensures Loaded(m, file, fs).failure.Some? ==> !Loaded(m, file, fs).failure.value.RequiredIsNull?
  {
    if file.Some? && file.value in fs.files {
      var username := Lookup(m, "username");
      if username.Text? && username.s in fs.files[file.value] {
        TextEntriesOnlyFailOnKeys(m, AsValues(fs.files[file.value][username.s]));
      }
    }
  }

  lemma {:induction false} TextEntriesOnlyFailOnKeys(m: map<string, Value>, entries: seq<(string, Value)>)
    requires forall i :: 0 <= i < |entries| ==> entries[i].1.Text?
    ensures Apply(m, entries).failure.Some? ==> Apply(m, entries).failure.value.InvalidKey?
    decreases |entries|
  {
    if entries != [] && Assign(m, entries[0].0, entries[0].1).Success? {
      var rest := entries[1..];
      assert forall i :: 0 <= i < |rest| ==> rest[i] == entries[i + 1];
      TextEntriesOnlyFailOnKeys(m[entries[0].0 := entries[0].1], rest);
    }
  }

  /** On-disk values override the stored ones, for a section whose keys are all valid and distinct. */
  lemma LoadedOverrides(m: map<string, Value>, path: string, fs: FileSystem, i: nat)
    requires path in fs.files && Lookup(m, "username").Text?
    requires Lookup(m, "username").s in fs.files[path]
    requires var items := fs.files[path][Lookup(m, "username").s];
             i < |items| &&
             (forall j :: 0 <= j < |items| ==> ValidKey(items[j].0)) &&
             (forall j, l :: 0 <= j < l < |items| ==> items[j].0 != items[l].0)
    ensures var items := fs.files[path][Lookup(m, "username").s];
            Loaded(m, Some(path), fs).failure == None &&
            Lookup(Loaded(m, Some(path), fs).config, items[i].0) == Text(items[i].1)
  {
    var items := fs.files[path][Lookup(m, "username").s];
    ApplyThenGet(m, AsValues(items), i);
  }

  /** The settings object of `filemail/config.py`. */
  class Config {
    /** `_config`: the settings themselves. */
    var config: map<string, Value>
    /** `config_file`: the located file, cached once found. */
    var configFile: Option<string>

    predicate Valid()
      reads this
    {
      ConformsToSchema(config) && "username" in config
    }

    /** The part of `__init__` that needs no file system: an empty store holding only `username`. */
    constructor (username: string)
      ensures Valid()
      ensures config == map["username" := Text(username)] && configFile == None
    {
      config := map[];
      configFile := None;
      new;
      var err := Set("username", Text(username));
    }

    /**
      `__init__` in full: store `username`, bulk-update with the keyword
      arguments, then look for the configuration file.
     */
    static method Create(username: string, kwargs: seq<(string, Value)>, env: Environment, fs: FileSystem)
      returns (r: Result<Config, ConfigError>)
      requires forall i :: 0 <= i < |kwargs| ==> kwargs[i].0 != "username"
      requires forall i, j :: 0 <= i < j < |kwargs| ==> kwargs[i].0 != kwargs[j].0
      ensures var applied := Apply(map["username" := Text(username)], kwargs);
              match r
              case Success(c) =>
                fresh(c) && c.Valid() && applied.failure == None && c.config == applied.config &&
                c.configFile == FirstQualifying(fs, Candidates(env))
              case Failure(e) => applied.failure == Some(e)
    {
      var c := new Config(username);
      if kwargs != [] {
        var err := c.Update(kwargs);
        if err.Some? {
          return Failure(err.value);
        }
      }
      c.CheckForConfigfile(env, fs);
      r := Success(c);
    }

    /** `set`: validate the key (and, for a required key, the value) before storing. */
    method Set(key: string, value: Value) returns (err: Option<ConfigError>)
      requires ConformsToSchema(config)
      modifies this`config
      ensures ConformsToSchema(config)
      ensures match Assign(old(config), key, value)
              case Success(m) => config == m && err == None
              case Failure(e) => config == old(config) && err == Some(e)
    {
      if ValidKey(key) {
        if IsRequired(key) {
          if value == Null {
            return Some(RequiredIsNull(key));
          }
        }
        config := config[key := value];
        err := None;
      } else {
        err := Some(InvalidKey(key));
      }
    }

    /** `get`: the stored value, or `None`, without any key check. */
    function Get(key: string): (v: Value)
      reads this
      ensures key in config ==> v == config[key]
      ensures key !in config ==> v == Null
      ensures Valid() && !ValidKey(key) ==> v == Null
      ensures Valid() && IsRequired(key) && key in config ==> v != Null
      ensures Valid() && key == "username" ==> v != Null
    {
      Lookup(config, key)
    }

    /** `config()`: the whole mapping. */
    function Contents(): (m: map<string, Value>)
      reads this
      ensures Valid() ==> ConformsToSchema(m) && "username" in m
    {
      config
    }

    /** `update`: `set` each entry in (dictionary iteration) order; an error stops the loop. */
    method Update(entries: seq<(string, Value)>) returns (err: Option<ConfigError>)
      requires Valid()
      modifies this`config
      ensures Valid()
      ensures Merge(config, err) == Apply(old(config), entries)
    {
      var i := 0;
      while i < |entries|
        invariant 0 <= i <= |entries|
        invariant Valid()
        invariant Apply(config, entries[i..]) == Apply(old(config), entries)
      {
        var (key, value) := entries[i];
        assert entries[i..][1..] == entries[i + 1..];
        err := Set(key, value);
        if err.Some? {
          return;
        }
        i := i + 1;
      }
      err := None;
    }

    /** `_locateConfig`: the cached path, or else the first qualifying candidate, cached. */
    method LocateConfig(env: Environment, fs: FileSystem) returns (path: Option<string>)
      modifies this`configFile
      ensures path == if old(configFile).Some? then old(configFile) else FirstQualifying(fs, Candidates(env))
      ensures configFile == path
    {
      if configFile.Some? {
        return configFile;
      }
      var locations := Candidates(env);
      var i := 0;
      while i < |locations|
        invariant 0 <= i <= |locations|
        invariant configFile == None
        invariant FirstQualifying(fs, locations[i..]) == FirstQualifying(fs, locations)
      {
        var candidate := locations[i];
        if candidate in fs.files {
          if Basename(candidate) == ConfigFileName {
            configFile := Some(candidate);
            return configFile;
          }
        }
        assert locations[i..][1..] == locations[i + 1..];
        i := i + 1;
      }
      return None;
    }

    /** `checkForConfigfile`: store what `_locateConfig` finds. */
    method CheckForConfigfile(env: Environment, fs: FileSystem)
      modifies this`configFile
      ensures configFile == if old(configFile).Some? then old(configFile) else FirstQualifying(fs, Candidates(env))
    {
      configFile := LocateConfig(env, fs);
    }

    /**
      `load`: find the file if none is cached; with none, do nothing;
      otherwise merge the section named after the stored username through `set`.
     */
    method Load(env: Environment, fs: FileSystem) returns (err: Option<ConfigError>)
      requires Valid()
      modifies this
      ensures Valid()
      ensures configFile == if old(configFile).Some? then old(configFile) else FirstQualifying(fs, Candidates(env))
      ensures Merge(config, err) == Loaded(old(config), configFile, fs)
    {
      if configFile.None? {
        CheckForConfigfile(env, fs);
      }
      if configFile.None? {
        return None;
      }
      var path := configFile.value;
      if path !in fs.files {
        return Some(Unreadable(path));
      }
      var sections := fs.files[path];
      var username := Get("username");
      if username.Text? && username.s in sections {
        err := Update(AsValues(sections[username.s]));
      } else {
        err := None;
      }
    }
  }
}
