/**
  * Configuration helpers: dotted-key lookup in the parsed TOML table, the
  * environment-variable overrides, comma-separated folder lists, the
  * qBittorrent connection record and the error and warning rules of the
  * configuration check.  The environment is a map from variable to value.
  */
module Config {
  import opened Wrappers
  import opened Text
  import opened Values
  import opened Sequences

  // ------------------------------------------------------------ get_nested

  /** The value reached by following keys through nested tables, if every step exists. */
  function Resolve(v: Value, keys: seq<string>): Option<Value> {
    if keys == [] then Some(v)
    else if v.VDict? && keys[0] in v.entries then Resolve(v.entries[keys[0]], keys[1..])
    else None
  }

  /** Following a concatenated key path is following the first part, then the second. */
  lemma {:induction false} ResolveConcat(v: Value, a: seq<string>, b: seq<string>)
    ensures Resolve(v, a + b) == if Resolve(v, a).Some? then Resolve(Resolve(v, a).value, b) else None
  {
    if a == [] {
      assert a + b == b;
    } else {
      assert (a + b)[0] == a[0] && (a + b)[1..] == a[1..] + b;
      if v.VDict? && a[0] in v.entries {
        ResolveConcat(v.entries[a[0]], a[1..], b);
      }
    }
  }

  /**
    * `get_nested(config, path, default)`: walks the dot-separated keys with a
    * loop, returning the default as soon as a step is missing or not a table.
    */
  method GetNested(config: Dict, path: string, default: Value) returns (r: Value)
    ensures r == Resolve(VDict(config), Split(path, '.')).GetOr(default)
  {
    var keys := Split(path, '.');
    var value := VDict(config);
    var i := 0;
    while i < |keys|
      invariant 0 <= i <= |keys|
      invariant Resolve(VDict(config), keys) == Resolve(value, keys[i..])
    {
      var key := keys[i];
      assert keys[i..][0] == key && keys[i..][1..] == keys[i + 1..];
      if value.VDict? && key in value.entries {
        value := value.entries[key];
      } else {
        return default;
      }
      i := i + 1;
    }
    return value;
  }

  /** A key without dots is a plain table lookup. */
  lemma {:induction false} SingleKeyLookup(config: Dict, key: string, default: Value)
    requires '.' !in key
    ensures Resolve(VDict(config), Split(key, '.')).GetOr(default) == Get(config, key, default)
  {
    SplitNoSep(key, '.');
  }

  /** `get_config(path, default, required)`: a ValueError only for a required value that resolves to None. */
  method GetConfig(config: Dict, path: string, default: Value, required: bool) returns (r: Result<Value, Error>)
    ensures r.Failure? <==> required && Resolve(VDict(config), Split(path, '.')).GetOr(default) == VNone
    ensures r.Success? ==> r.value == Resolve(VDict(config), Split(path, '.')).GetOr(default)
  {
    var value := GetNested(config, path, default);
    if required && value == VNone {
      return Failure(ValueError("Required configuration '" + path + "' not found"));
    }
    return Success(value);
  }

  // ------------------------------------------------------------ environment overrides

  datatype ValueType = StrType | IntType | BoolType

  /** The spellings of true an environment variable may use, compared after lower-casing. */
  predicate IsTrueWord(s: string) {
    s == "true" || s == "1" || s == "yes" || s == "on"
  }

  /** How an environment value is read for each declared type. */
  function ParseEnv(raw: string, ty: ValueType): (r: Result<Value, Error>)
    ensures ty == BoolType ==> r == Success(VBool(IsTrueWord(Lower(raw))))
    ensures ty == StrType ==> r == Success(VStr(raw))
    ensures ty == IntType ==> (r.Success? <==> ParseInt(raw).Some?)
    ensures ty == IntType && r.Success? ==> r.value == VInt(ParseInt(raw).value)
  {
    match ty
    case BoolType => Success(VBool(IsTrueWord(Lower(raw))))
    case IntType =>
      (match ToInt(VStr(raw))
       case Success(n) => Success(VInt(n))
       case Failure(e) => Failure(e))
    case StrType => Success(VStr(raw))
  }

  /** Every other spelling, including "y", "enabled" or the empty string, reads as false. */
  lemma {:induction false} EnvBoolExamples()
    ensures ParseEnv("TRUE", BoolType) == Success(VBool(true))
    ensures ParseEnv("On", BoolType) == Success(VBool(true))
    ensures ParseEnv("y", BoolType) == Success(VBool(false))
    ensures ParseEnv("", BoolType) == Success(VBool(false))
  {
    assert Lower("TRUE") == "true";
    assert Lower("On") == "on";
    assert Lower("y") == "y";
  }

  /** An integer setting written back by `str` reads as the same integer. */
  lemma {:induction false} EnvIntRoundTrip(n: int)
    ensures ParseEnv(IntToString(n), IntType) == Success(VInt(n))
  {
    ParseIntToString(n);
  }

  /** `get_env_override(var, path, default, type)`: a set variable wins over the table. */
  method GetEnvOverride(env: map<string, string>, config: Dict, envVar: string, configPath: string,
                        default: Value, ty: ValueType) returns (r: Result<Value, Error>)
    ensures envVar in env ==> r == ParseEnv(env[envVar], ty)
    ensures envVar !in env ==> r == Success(Resolve(VDict(config), Split(configPath, '.')).GetOr(default))
  {
    if envVar in env {
      return ParseEnv(env[envVar], ty);
    }
    r := GetConfig(config, configPath, default, false);
  }

  // ------------------------------------------------------------ root folder lists

  /** A folder entry as the list keeps it: non-empty, without a comma, already stripped. */
  predicate CleanFolder(x: string) {
    x != "" && ',' !in x && Strip(x) == x
  }

  /** `[p.strip() for p in s.split(',') if p.strip()]` */
  function SplitRootFolders(s: string): (r: seq<string>)
    ensures forall k :: 0 <= k < |r| ==> CleanFolder(r[k])
  {
    StripNonEmpty(Split(s, ','))
  }

  function StripNonEmpty(parts: seq<string>): (r: seq<string>)
    requires forall k :: 0 <= k < |parts| ==> ',' !in parts[k]
    ensures |r| <= |parts|
    ensures forall k :: 0 <= k < |r| ==> CleanFolder(r[k])
  {
    if parts == [] then []
    else
      var rest := StripNonEmpty(parts[1..]);
      var p := Strip(parts[0]);
      if p == "" then rest
      else
        assert CleanFolder(p) by {
          StripIdempotent(parts[0]);
          StripKeepsOut(parts[0], ',');
        }
        [p] + rest
  }

  lemma {:induction false} StripKeepsOut(s: string, c: char)
    requires c !in s
    ensures c !in Strip(s)
  {
    var l := StripLeft(s);
    assert c !in l;
  }

  lemma {:induction false} StripIdempotent(s: string)
    ensures Strip(Strip(s)) == Strip(s)
  {
    var r := Strip(s);
    if r != [] {
      assert !IsSpace(r[|r| - 1]);
      var l := StripLeft(s);
      assert r == l[..|r|] && l != [];
      assert !IsSpace(l[0]);
      assert r[0] == l[0];
      NoSpaceEnds(r);
    }
  }

  lemma {:induction false} NoSpaceEnds(s: string)
    requires s != [] && !IsSpace(s[0]) && !IsSpace(s[|s| - 1])
    ensures Strip(s) == s
  {
    var l := StripLeft(s);
    assert l == s;
    var r := StripRight(l);
    assert r == l;
  }

  /** Folder lists written as comma-separated text read back as the same list. */
  lemma {:induction false} RootFoldersRoundTrip(folders: seq<string>)
    requires |folders| > 0
    requires forall k :: 0 <= k < |folders| ==> folders[k] != "" && ',' !in folders[k] && Strip(folders[k]) == folders[k]
    ensures SplitRootFolders(Join(folders, ",")) == folders
  {
    SplitJoin(folders, ',');
    StripNonEmptyFixed(folders);
  }

  lemma {:induction false} StripNonEmptyFixed(parts: seq<string>)
    requires forall k :: 0 <= k < |parts| ==> parts[k] != "" && ',' !in parts[k] && Strip(parts[k]) == parts[k]
    ensures StripNonEmpty(parts) == parts
  {
    if parts != [] {
      StripNonEmptyFixed(parts[1..]);
      assert [parts[0]] + parts[1..] == parts;
    }
  }

  /** The configured folder list: a text value is split, a list is used as given. */
  function RootFolders(v: Value): Value {
    if v.VStr? then VList(seq(|SplitRootFolders(v.s)|, k requires 0 <= k < |SplitRootFolders(v.s)| => VStr(SplitRootFolders(v.s)[k]))) else v
  }

  // ------------------------------------------------------------ resolved settings

  /** The settings the rest of the program reads from the configuration module. */
  datatype Settings = Settings(
    dryRun: bool,
    downloadPathSsd: string,
    finalDestBaseHdd: string,
    logFile: string,
    lockDir: string,
    qbitHost: string,
    qbitPort: int,
    qbitUsername: string,
    qbitPassword: string,
    qbitVerifySsl: bool,
    httpEnabled: bool,
    httpHost: string,
    httpPort: int,
    httpApiKey: string,
    maxConcurrentProcesses: int,
    diskSpaceThresholdGb: int,
    copyRetryAttempts: int,
    maxConcurrentCopyOperations: int,
    notifyArrEnabled: bool,
    sonarrUrl: string,
    sonarrApiKey: string,
    sonarrTag: string,
    radarrUrl: string,
    radarrApiKey: string,
    radarrTag: string,
    enableLocationTagging: bool,
    autoTagNewTorrents: bool,
    ssdLocationTag: string,
    hddLocationTag: string,
    enableImportScriptMode: bool,
    sonarrRootFolders: seq<string>,
    radarrRootFolders: seq<string>,
    tautulliUrl: string,
    tautulliApiKey: string,
    plexPathMappings: seq<(string, string)>)

  /** The values used when neither the environment nor the table sets them. */
  const Defaults := Settings(
    false, "/downloads/ssd", "/downloads/hdd",
    "/config/log/qbit-manager.log", "/config/qbit-manager-state",
    "localhost", 8080, "admin", "adminadmin", true,
    true, "127.0.0.1", 8081, "",
    3, 100, 3, 1,
    true, "http://sonarr:8989", "", "sonarr", "http://radarr:7878", "", "radarr",
    true, true, "ssd", "hdd",
    false, [], [], "http://tautulli:8181", "",
    [("/downloads/ssd", "/mnt/ssd-cache/flood"), ("/downloads/hdd", "/Downloads")])

  const GB: int := 1024 * 1024 * 1024

  // ------------------------------------------------------------ qBittorrent connection

  datatype QbitConnection = QbitConnection(host: string, username: string, password: string, verifyCertificate: bool)

  /** `get_qbit_connection_info()`: validates, then joins host and port. */
  function GetQbitConnectionInfo(s: Settings): (r: Result<QbitConnection, Error>)
    ensures r.Success? <==> s.qbitUsername != "" && s.qbitPassword != "" && s.qbitHost != "" && 1 <= s.qbitPort <= 65535
    ensures r.Success? ==>
              r.value.username == s.qbitUsername && r.value.password == s.qbitPassword &&
              r.value.verifyCertificate == s.qbitVerifySsl
    ensures r.Failure? ==> r.error.ValueError?
  {
    if s.qbitUsername == "" then Failure(ValueError("qBittorrent username cannot be empty"))
    else if s.qbitPassword == "" then Failure(ValueError("qBittorrent password cannot be empty"))
    else if s.qbitHost == "" then Failure(ValueError("qBittorrent host cannot be empty"))
    else if !(1 <= s.qbitPort <= 65535) then Failure(ValueError("qBittorrent port must be between 1 and 65535"))
    else Success(QbitConnection(s.qbitHost + ":" + IntToString(s.qbitPort), s.qbitUsername, s.qbitPassword, s.qbitVerifySsl))
  }

  /** The connection's host string splits back into the configured host and port. */
  lemma {:induction false} ConnectionHostRoundTrip(s: Settings)
    requires GetQbitConnectionInfo(s).Success? && ':' !in s.qbitHost
    ensures var parts := Split(GetQbitConnectionInfo(s).value.host, ':');
            |parts| == 2 && parts[0] == s.qbitHost && ParseInt(parts[1]) == Some(s.qbitPort)
  {
    var digits := IntToString(s.qbitPort);
    assert digits == NatToString(s.qbitPort);
    assert ':' !in digits by {
      var d := NatToString(s.qbitPort);
      assert forall k :: 0 <= k < |d| ==> IsDigit(d[k]);
    }
    SplitConcat(s.qbitHost, digits, ':');
    SplitNoSep(s.qbitHost, ':');
    SplitNoSep(digits, ':');
    assert s.qbitHost + ":" + digits == s.qbitHost + [':'] + digits;
    ParseIntToString(s.qbitPort);
  }

  // ------------------------------------------------------------ validate_config

  /** The problems `validate_config()` reports as errors ... */
  datatype ConfigError =
    | ApiKeyMissing | HttpPortOutOfRange
    | SsdTagEmpty | HddTagEmpty | TagsEqual
    | RetryTooLow | ConcurrencyTooLow
    | SsdPathMissing | SsdPathNotWritable | HddPathMissing | HddPathNotWritable

  /** ... and as warnings. */
  datatype ConfigWarning =
    | ApiKeyShort | HttpHostExposed
    | SonarrKeyMissing | RadarrKeyMissing
    | NoRootFolders | TautulliKeyMissing | TautulliUrlMissing | NoPlexMappings
    | ThresholdLow | ThresholdHigh | RetryExcessive | ConcurrencyExcessive
    | OutsideContainer | LogDirNotCreated | StateDirNotCreated

  /** What the check learns from the file system. */
  datatype FsFacts = FsFacts(
    configExists: bool, downloadsExists: bool,
    ssdExists: bool, ssdWritable: bool, hddExists: bool, hddWritable: bool,
    logDirExists: bool, logDirCreatable: bool, lockDirExists: bool, lockDirCreatable: bool)

  /** `not t or not t.strip()`: the tag is empty or only whitespace (see BlankTagStrip). */
  predicate BlankTag(t: string) {
    forall k :: 0 <= k < |t| ==> IsSpace(t[k])
  }

  lemma {:induction false} BlankTagStrip(t: string)
    ensures BlankTag(t) <==> t == "" || Strip(t) == ""
  {
    StripEmptyIff(t);
  }

  /** The bindings the check accepts without comment. */
  predicate ExpectedBinding(h: string) {
    h == "127.0.0.1" || h == "localhost" || h == "0.0.0.0"
  }

  // Each rule of `validate_config()`, stated on the whole list of errors or warnings.

  predicate HttpErrors(s: Settings, errors: seq<ConfigError>) {
    && (ApiKeyMissing in errors <==> s.httpEnabled && s.httpApiKey == "")
    && (HttpPortOutOfRange in errors <==> s.httpEnabled && !(1024 <= s.httpPort <= 65535))
  }

  predicate HttpWarnings(s: Settings, warnings: seq<ConfigWarning>) {
    && (ApiKeyShort in warnings <==> s.httpEnabled && s.httpApiKey != "" && |s.httpApiKey| < 16)
    && (HttpHostExposed in warnings <==> s.httpEnabled && !ExpectedBinding(s.httpHost))
  }

  predicate NotificationWarnings(s: Settings, warnings: seq<ConfigWarning>) {
    && (SonarrKeyMissing in warnings <==> s.notifyArrEnabled && s.sonarrApiKey == "")
    && (RadarrKeyMissing in warnings <==> s.notifyArrEnabled && s.radarrApiKey == "")
  }

  predicate TaggingErrors(s: Settings, errors: seq<ConfigError>) {
    && (SsdTagEmpty in errors <==> s.enableLocationTagging && BlankTag(s.ssdLocationTag))
    && (HddTagEmpty in errors <==> s.enableLocationTagging && BlankTag(s.hddLocationTag))
    && (TagsEqual in errors <==> s.enableLocationTagging && s.ssdLocationTag == s.hddLocationTag)
  }

  predicate ImportScriptWarnings(s: Settings, warnings: seq<ConfigWarning>) {
    && (NoRootFolders in warnings <==> s.enableImportScriptMode && s.sonarrRootFolders == [] && s.radarrRootFolders == [])
    && (TautulliKeyMissing in warnings <==> s.enableImportScriptMode && s.tautulliApiKey == "")
    && (TautulliUrlMissing in warnings <==> s.enableImportScriptMode && s.tautulliUrl == "")
    && (NoPlexMappings in warnings <==> s.enableImportScriptMode && s.plexPathMappings == [])
  }

  predicate LimitErrors(s: Settings, errors: seq<ConfigError>) {
    && (RetryTooLow in errors <==> s.copyRetryAttempts < 1)
    && (ConcurrencyTooLow in errors <==> s.maxConcurrentProcesses < 1)
  }

  predicate LimitWarnings(s: Settings, warnings: seq<ConfigWarning>) {
    && (ThresholdLow in warnings <==> s.diskSpaceThresholdGb < 10)
    && (ThresholdHigh in warnings <==> s.diskSpaceThresholdGb > 1000)
    && (RetryExcessive in warnings <==> s.copyRetryAttempts > 10)
    && (ConcurrencyExcessive in warnings <==> s.maxConcurrentProcesses > 10)
  }

  /** The storage-path rules apply only inside the container layout (/config and /downloads present). */
  predicate StorageErrors(fs: FsFacts, errors: seq<ConfigError>) {
    && (SsdPathMissing in errors <==> fs.configExists && fs.downloadsExists && !fs.ssdExists)
    && (SsdPathNotWritable in errors <==> fs.configExists && fs.downloadsExists && fs.ssdExists && !fs.ssdWritable)
    && (HddPathMissing in errors <==> fs.configExists && fs.downloadsExists && !fs.hddExists)
    && (HddPathNotWritable in errors <==> fs.configExists && fs.downloadsExists && fs.hddExists && !fs.hddWritable)
  }

  predicate StorageWarnings(fs: FsFacts, warnings: seq<ConfigWarning>) {
    OutsideContainer in warnings <==> !fs.configExists
  }

  predicate DirWarnings(fs: FsFacts, warnings: seq<ConfigWarning>) {
    && (LogDirNotCreated in warnings <==> fs.configExists && !fs.logDirExists && !fs.logDirCreatable)
    && (StateDirNotCreated in warnings <==> fs.configExists && !fs.lockDirExists && !fs.lockDirCreatable)
  }

  /** Every error rule holds. */
  predicate ErrorRules(s: Settings, fs: FsFacts, errors: seq<ConfigError>) {
    HttpErrors(s, errors) && TaggingErrors(s, errors) && LimitErrors(s, errors) && StorageErrors(fs, errors)
  }

  /** Every warning rule holds. */
  predicate WarningRules(s: Settings, fs: FsFacts, warnings: seq<ConfigWarning>) {
    && HttpWarnings(s, warnings) && NotificationWarnings(s, warnings) && ImportScriptWarnings(s, warnings)
    && LimitWarnings(s, warnings) && StorageWarnings(fs, warnings) && DirWarnings(fs, warnings)
  }

  /** The section of `validate_config()` that reports each kind. */
  datatype Section = Http | Notifications | Tagging | ImportScript | Limits | Storage | Dirs

  function ErrorSection(e: ConfigError): Section {
    match e
    case ApiKeyMissing | HttpPortOutOfRange => Http
    case SsdTagEmpty | HddTagEmpty | TagsEqual => Tagging
    case RetryTooLow | ConcurrencyTooLow => Limits
    case SsdPathMissing | SsdPathNotWritable | HddPathMissing | HddPathNotWritable => Storage
  }

  function WarningSection(w: ConfigWarning): Section {
    match w
    case ApiKeyShort | HttpHostExposed => Http
    case SonarrKeyMissing | RadarrKeyMissing => Notifications
    case NoRootFolders | TautulliKeyMissing | TautulliUrlMissing | NoPlexMappings => ImportScript
    case ThresholdLow | ThresholdHigh | RetryExcessive | ConcurrencyExcessive => Limits
    case OutsideContainer => Storage
    case LogDirNotCreated | StateDirNotCreated => Dirs
  }

  predicate ErrorsFrom(sec: Section, errors: seq<ConfigError>) {
    forall e :: e in errors ==> ErrorSection(e) == sec
  }

  predicate WarningsFrom(sec: Section, warnings: seq<ConfigWarning>) {
    forall w :: w in warnings ==> WarningSection(w) == sec
  }

  // The sections of `validate_config()`, each reporting only its own kinds.

  method CheckHttp(s: Settings) returns (errors: seq<ConfigError>, warnings: seq<ConfigWarning>)
    ensures HttpErrors(s, errors) && ErrorsFrom(Http, errors)
    ensures HttpWarnings(s, warnings) && WarningsFrom(Http, warnings)
  {
    errors, warnings := [], [];
    if s.httpEnabled {
      if s.httpApiKey == "" {
        errors := errors + [ApiKeyMissing];
      } else if |s.httpApiKey| < 16 {
        warnings := warnings + [ApiKeyShort];
      }
      if !(1024 <= s.httpPort <= 65535) {
        errors := errors + [HttpPortOutOfRange];
      }
      if !ExpectedBinding(s.httpHost) {
        warnings := warnings + [HttpHostExposed];
      }
    }
  }

  /** Unset notification keys are only warnings. */
  method CheckNotifications(s: Settings) returns (warnings: seq<ConfigWarning>)
    ensures NotificationWarnings(s, warnings) && WarningsFrom(Notifications, warnings)
  {
    warnings := [];
    if s.notifyArrEnabled {
      if s.sonarrApiKey == "" {
        warnings := warnings + [SonarrKeyMissing];
      }
      if s.radarrApiKey == "" {
        warnings := warnings + [RadarrKeyMissing];
      }
    }
  }

  method CheckTagging(s: Settings) returns (errors: seq<ConfigError>)
    ensures TaggingErrors(s, errors) && ErrorsFrom(Tagging, errors)
  {
    errors := [];
    if s.enableLocationTagging {
      if BlankTag(s.ssdLocationTag) {
        errors := errors + [SsdTagEmpty];
      }
      if BlankTag(s.hddLocationTag) {
        errors := errors + [HddTagEmpty];
      }
      if s.ssdLocationTag == s.hddLocationTag {
        errors := errors + [TagsEqual];
      }
    }
  }

  method CheckImportScript(s: Settings) returns (warnings: seq<ConfigWarning>)
    ensures ImportScriptWarnings(s, warnings) && WarningsFrom(ImportScript, warnings)
  {
    warnings := [];
    if s.enableImportScriptMode {
      if s.sonarrRootFolders == [] && s.radarrRootFolders == [] {
        warnings := warnings + [NoRootFolders];
      }
      if s.tautulliApiKey == "" {
        warnings := warnings + [TautulliKeyMissing];
      }
      if s.tautulliUrl == "" {
        warnings := warnings + [TautulliUrlMissing];
      }
      if s.plexPathMappings == [] {
        warnings := warnings + [NoPlexMappings];
      }
    }
  }

  /** The threshold, retry and concurrency rules. */
  method CheckLimits(s: Settings) returns (errors: seq<ConfigError>, warnings: seq<ConfigWarning>)
    ensures LimitErrors(s, errors) && ErrorsFrom(Limits, errors)
    ensures LimitWarnings(s, warnings) && WarningsFrom(Limits, warnings)
  {
    errors, warnings := [], [];
    if s.diskSpaceThresholdGb < 10 {
      warnings := warnings + [ThresholdLow];
    } else if s.diskSpaceThresholdGb > 1000 {
      warnings := warnings + [ThresholdHigh];
    }
    if s.copyRetryAttempts < 1 {
      errors := errors + [RetryTooLow];
    } else if s.copyRetryAttempts > 10 {
      warnings := warnings + [RetryExcessive];
    }
    if s.maxConcurrentProcesses < 1 {
      errors := errors + [ConcurrencyTooLow];
    } else if s.maxConcurrentProcesses > 10 {
      warnings := warnings + [ConcurrencyExcessive];
    }
  }

  method CheckStorage(fs: FsFacts) returns (errors: seq<ConfigError>, warnings: seq<ConfigWarning>)
    ensures StorageErrors(fs, errors) && ErrorsFrom(Storage, errors)
    ensures StorageWarnings(fs, warnings) && WarningsFrom(Storage, warnings)
  {
    errors, warnings := [], [];
    if fs.configExists && fs.downloadsExists {
      if !fs.ssdExists {
        errors := errors + [SsdPathMissing];
      } else if !fs.ssdWritable {
        errors := errors + [SsdPathNotWritable];
      }
      if !fs.hddExists {
        errors := errors + [HddPathMissing];
      } else if !fs.hddWritable {
        errors := errors + [HddPathNotWritable];
      }
    } else if !fs.configExists {
      warnings := warnings + [OutsideContainer];
    }
  }

  /** The log and state directories are created when missing; a failure is only a warning. */
  method CheckStateDirs(fs: FsFacts) returns (warnings: seq<ConfigWarning>)
    ensures DirWarnings(fs, warnings) && WarningsFrom(Dirs, warnings)
  {
    warnings := [];
    if fs.configExists && !fs.logDirExists && !fs.logDirCreatable {
      warnings := warnings + [LogDirNotCreated];
    }
    if fs.configExists && !fs.lockDirExists && !fs.lockDirCreatable {
      warnings := warnings + [StateDirNotCreated];
    }
  }

  lemma {:induction false} ComposeErrors(s: Settings, fs: FsFacts, e1: seq<ConfigError>, e3: seq<ConfigError>, e5: seq<ConfigError>, e6: seq<ConfigError>)
    requires HttpErrors(s, e1) && ErrorsFrom(Http, e1)
    requires TaggingErrors(s, e3) && ErrorsFrom(Tagging, e3)
    requires LimitErrors(s, e5) && ErrorsFrom(Limits, e5)
    requires StorageErrors(fs, e6) && ErrorsFrom(Storage, e6)
    ensures ErrorRules(s, fs, e1 + e3 + e5 + e6)
  {
    var all := e1 + e3 + e5 + e6;
    assert HttpErrors(s, all) by {
      InSection(ApiKeyMissing, all, e1, e3, e5, e6);
      InSection(HttpPortOutOfRange, all, e1, e3, e5, e6);
    }
    assert TaggingErrors(s, all) by {
      InSection(SsdTagEmpty, all, e1, e3, e5, e6);
      InSection(HddTagEmpty, all, e1, e3, e5, e6);
      InSection(TagsEqual, all, e1, e3, e5, e6);
    }
    assert LimitErrors(s, all) by {
      InSection(RetryTooLow, all, e1, e3, e5, e6);
      InSection(ConcurrencyTooLow, all, e1, e3, e5, e6);
    }
    assert StorageErrors(fs, all) by {
      InSection(SsdPathMissing, all, e1, e3, e5, e6);
      InSection(SsdPathNotWritable, all, e1, e3, e5, e6);
      InSection(HddPathMissing, all, e1, e3, e5, e6);
      InSection(HddPathNotWritable, all, e1, e3, e5, e6);
    }
  }

  /** An error is in the joined list exactly when it is in the list of its own section. */
  lemma {:induction false} InSection(x: ConfigError, all: seq<ConfigError>, e1: seq<ConfigError>, e3: seq<ConfigError>, e5: seq<ConfigError>, e6: seq<ConfigError>)
    requires all == e1 + e3 + e5 + e6
    requires ErrorsFrom(Http, e1) && ErrorsFrom(Tagging, e3) && ErrorsFrom(Limits, e5) && ErrorsFrom(Storage, e6)
    ensures x in all <==>
      match ErrorSection(x)
      case Http => x in e1
      case Tagging => x in e3
      case Limits => x in e5
      case Storage => x in e6
      case _ => false
  {
    assert x in all <==> x in e1 || x in e3 || x in e5 || x in e6;
  }

  lemma {:induction false} ComposeSettingsWarnings(s: Settings, w1: seq<ConfigWarning>, w2: seq<ConfigWarning>, w4: seq<ConfigWarning>, rest: seq<ConfigWarning>)
    requires HttpWarnings(s, w1) && WarningsFrom(Http, w1)
    requires NotificationWarnings(s, w2) && WarningsFrom(Notifications, w2)
    requires ImportScriptWarnings(s, w4) && WarningsFrom(ImportScript, w4)
    requires forall w :: w in rest ==> WarningSection(w) in {Limits, Storage, Dirs}
    ensures HttpWarnings(s, w1 + w2 + w4 + rest)
    ensures NotificationWarnings(s, w1 + w2 + w4 + rest)
    ensures ImportScriptWarnings(s, w1 + w2 + w4 + rest)
  {
  }

  lemma {:induction false} ComposeOtherWarnings(s: Settings, fs: FsFacts, front: seq<ConfigWarning>, w5: seq<ConfigWarning>, w6: seq<ConfigWarning>, w7: seq<ConfigWarning>)
    requires forall w :: w in front ==> WarningSection(w) in {Http, Notifications, ImportScript}
    requires LimitWarnings(s, w5) && WarningsFrom(Limits, w5)
    requires StorageWarnings(fs, w6) && WarningsFrom(Storage, w6)
    requires DirWarnings(fs, w7) && WarningsFrom(Dirs, w7)
    ensures LimitWarnings(s, front + w5 + w6 + w7)
    ensures StorageWarnings(fs, front + w5 + w6 + w7)
    ensures DirWarnings(fs, front + w5 + w6 + w7)
  {
  }

  /**
    * `validate_config()`: the sections run in the order of the source and each
    * appends its findings; the contract says which findings appear, not in what order.
    */
  method ValidateConfig(s: Settings, fs: FsFacts) returns (errors: seq<ConfigError>, warnings: seq<ConfigWarning>)
    ensures ErrorRules(s, fs, errors)
    ensures WarningRules(s, fs, warnings)
  {
    var e1, w1 := CheckHttp(s);
    var w2 := CheckNotifications(s);
    var e3 := CheckTagging(s);
    var w4 := CheckImportScript(s);
    var e5, w5 := CheckLimits(s);
    var e6, w6 := CheckStorage(fs);
    var w7 := CheckStateDirs(fs);
    errors := e1 + e3 + e5 + e6;
    ComposeErrors(s, fs, e1, e3, e5, e6);
    var front, rest := w1 + w2 + w4, w5 + w6 + w7;
    warnings := front + rest;
    ComposeSettingsWarnings(s, w1, w2, w4, rest);
    ComposeOtherWarnings(s, fs, front, w5, w6, w7);
    assert w1 + w2 + w4 + rest == warnings && front + w5 + w6 + w7 == warnings;
  }

  /** With the shipped defaults and writable storage paths, the only error is the unset HTTP API key. */
  lemma {:induction false} DefaultsOnlyNeedApiKey(fs: FsFacts, errors: seq<ConfigError>)
    requires fs.configExists && fs.downloadsExists && fs.ssdExists && fs.ssdWritable && fs.hddExists && fs.hddWritable
    requires ErrorRules(Defaults, fs, errors)
    ensures errors != [] && forall e :: e in errors ==> e == ApiKeyMissing
  {
    assert !IsSpace(Defaults.ssdLocationTag[0]) && !IsSpace(Defaults.hddLocationTag[0]);
    assert Defaults.ssdLocationTag[0] != Defaults.hddLocationTag[0];
  }
}
