/**
 * Loading the settings (`Config` of src/utils/config.py): from the environment when both cookies are set
 * there, otherwise from config/setting.json, which must name both cookies and is completed with defaults in
 * place.
 */
module Settings {
  import opened Common
  import opened Json
  import opened Text

  const MissingKey := "配置文件中缺少必要的配置项: "
  const LoadFailed := "配置加载失败: "
  const SettingsPath := "config/setting.json"

  /** The keys a settings file must give a truthy value, in the order they are checked. */
  const RequiredKeys := ["Cookie_MUSIC_U", "Cookie___csrf"]

  /** A settings dict. Its values are only ever looked up by key, so the order of its keys is left out. */
  type Dict = map<string, Json>

  /** The dict `json.loads` builds from an object: each key bound to its last value. */
  function AsDict(fields: seq<Field>): (d: Dict)
    ensures forall k :: At(d, k) == Lookup(fields, k)
  {
    map k | k in (set i | 0 <= i < |fields| :: fields[i].key) :: Lookup(fields, k).value
  }

  /** A key the settings file binds more than once reads as its last binding, as `json.loads` keeps it. */
  lemma AsDictLast(fields: seq<Field>, key: string, v: Json)
    ensures At(AsDict(fields), key) == Some(v) <==>
      exists i :: 0 <= i < |fields| && fields[i] == Field(key, v) && forall j :: i < j < |fields| ==> fields[j].key != key
  {
    LookupLast(fields, key, v);
  }

  /** `d.setdefault(key, v)`: a key already there keeps its value; a new one gets `v`. */
  function WithDefault(d: Dict, key: string, v: Json): (r: Dict)
    ensures r.Keys == d.Keys + {key}
    ensures At(r, key) == if key in d then At(d, key) else Some(v)
  {
    if key in d then d else d[key := v]
  }

  /** `os.getenv(var)` is truthy: the variable is set and not empty. */
  predicate EnvSet(env: map<string, string>, name: string) {
    name in env && env[name] != ""
  }

  /** `os.getenv(var)` as a value: the text, or `None`. */
  function EnvJson(env: map<string, string>, name: string): (r: Json)
    ensures name in env <==> r.Str?
  {
    if name in env then Str(env[name]) else Null
  }

  /** `_check_env_variables()`: both MUSIC_U and CSRF are set and not empty. */
  predicate CheckEnv(env: map<string, string>) {
    EnvSet(env, "MUSIC_U") && EnvSet(env, "CSRF")
  }

  /** `float(s)` on integer text; other text is refused with ValueError. */
  function PyFloat(s: string): (r: Result<Json>)
    ensures r.Ok? <==> ParseInt(s).Ok?
    ensures r.Ok? ==> r.value == Num(ParseInt(s).value)
    ensures r.Err? ==> r.exc.kind == ValueError
  {
    match ParseInt(s)
    case Ok(n) => Ok(Num(n))
    case Err(_) => Err(Exc(ValueError, "could not convert string to float: '" + s + "'"))
  }

  // ---------------------------------------------------------------------------------------------
  // _load_from_env
  // ---------------------------------------------------------------------------------------------

  /** The keys the environment can fill. */
  const EnvKeys := {"Cookie_MUSIC_U", "Cookie___csrf", "notify_email", "email_password", "smtp_server", "smtp_port",
                    "wait_time_min", "wait_time_max"}

  /** An optional text setting: there exactly when its variable is set and not empty. */
  function Optional(env: map<string, string>, name: string): Option<Json> {
    if EnvSet(env, name) then Some(Str(env[name])) else None
  }

  /** `int(os.getenv(name))`, read only when the variable is set and not empty. */
  function EnvInt(env: map<string, string>, name: string): (r: Result<Option<Json>>)
    ensures r.Ok? ==> (r.value.Some? <==> EnvSet(env, name))
    ensures r.Err? ==> r.exc.kind == ValueError
  {
    if !EnvSet(env, name) then Ok(None)
    else match ParseInt(env[name])
      case Ok(n) => Ok(Some(Num(n)))
      case Err(e) => Err(e)
  }

  /** `float(os.getenv(name))`, read only when the variable is set and not empty. */
  function EnvFloat(env: map<string, string>, name: string): (r: Result<Option<Json>>)
    ensures r.Ok? ==> (r.value.Some? <==> EnvSet(env, name))
    ensures r.Err? ==> r.exc.kind == ValueError
  {
    if !EnvSet(env, name) then Ok(None)
    else match PyFloat(env[name])
      case Ok(j) => Ok(Some(j))
      case Err(e) => Err(e)
  }

  /**
   * What `_load_from_env()` gives: the two cookies copied from MUSIC_U and CSRF, each optional setting only
   * when its variable is set and not empty, the waits defaulting to 15 and 20, and no other key. A number
   * that does not parse raises ValueError, the port first.
   */
  predicate FromEnv(env: map<string, string>, r: Result<Dict>) {
    var (port, low, high) := (EnvInt(env, "SMTP_PORT"), EnvFloat(env, "WAIT_TIME_MIN"), EnvFloat(env, "WAIT_TIME_MAX"));
    && (r.Err? <==> port.Err? || low.Err? || high.Err?)
    && (r.Err? ==> r.exc == if port.Err? then port.exc else if low.Err? then low.exc else high.exc)
    && (r.Ok? ==>
          var (port, low, high) := (port.value, low.value, high.value);
          && At(r.value, "Cookie_MUSIC_U") == Some(EnvJson(env, "MUSIC_U"))
          && At(r.value, "Cookie___csrf") == Some(EnvJson(env, "CSRF"))
          && At(r.value, "notify_email") == Optional(env, "NOTIFY_EMAIL")
          && At(r.value, "email_password") == Optional(env, "EMAIL_PASSWORD")
          && At(r.value, "smtp_server") == Optional(env, "SMTP_SERVER")
          && At(r.value, "smtp_port") == port
          && At(r.value, "wait_time_min") == (if low.Some? then low else Some(Num(15)))
          && At(r.value, "wait_time_max") == (if high.Some? then high else Some(Num(20)))
          && r.value.Keys <= EnvKeys)
  }

  /** The keys `_load_from_env()` fills from text variables. */
  const TextKeys := {"Cookie_MUSIC_U", "Cookie___csrf", "notify_email", "email_password", "smtp_server"}

  /** The first half of `_load_from_env()`: the cookies and the optional text settings. */
  method LoadTexts(env: map<string, string>) returns (config: Dict)
    ensures At(config, "Cookie_MUSIC_U") == Some(EnvJson(env, "MUSIC_U"))
    ensures At(config, "Cookie___csrf") == Some(EnvJson(env, "CSRF"))
    ensures At(config, "notify_email") == Optional(env, "NOTIFY_EMAIL")
    ensures At(config, "email_password") == Optional(env, "EMAIL_PASSWORD")
    ensures At(config, "smtp_server") == Optional(env, "SMTP_SERVER")
    ensures config.Keys <= TextKeys
  {
    config := map[];
    config := config["Cookie_MUSIC_U" := EnvJson(env, "MUSIC_U")];
    config := config["Cookie___csrf" := EnvJson(env, "CSRF")];
    if EnvSet(env, "NOTIFY_EMAIL") {
      config := config["notify_email" := Str(env["NOTIFY_EMAIL"])];
    }
    if EnvSet(env, "EMAIL_PASSWORD") {
      config := config["email_password" := Str(env["EMAIL_PASSWORD"])];
    }
    if EnvSet(env, "SMTP_SERVER") {
      config := config["smtp_server" := Str(env["SMTP_SERVER"])];
    }
  }

  /**
   * The second half of `_load_from_env()`: the port and the waits are parsed in that order, the first that
   * does not parse raising, and the waits default to 15 and 20. No text setting is touched.
   */
  method LoadNumbers(env: map<string, string>, config: Dict) returns (r: Result<Dict>)
    ensures var (port, low, high) := (EnvInt(env, "SMTP_PORT"), EnvFloat(env, "WAIT_TIME_MIN"), EnvFloat(env, "WAIT_TIME_MAX"));
      && (r.Err? <==> port.Err? || low.Err? || high.Err?)
      && (r.Err? ==> r.exc == if port.Err? then port.exc else if low.Err? then low.exc else high.exc)
    ensures r.Ok? && "smtp_port" !in config ==> At(r.value, "smtp_port") == EnvInt(env, "SMTP_PORT").value
    ensures r.Ok? && "wait_time_min" !in config ==>
      At(r.value, "wait_time_min") == (if EnvFloat(env, "WAIT_TIME_MIN").value.Some? then EnvFloat(env, "WAIT_TIME_MIN").value else Some(Num(15)))
    ensures r.Ok? && "wait_time_max" !in config ==>
      At(r.value, "wait_time_max") == (if EnvFloat(env, "WAIT_TIME_MAX").value.Some? then EnvFloat(env, "WAIT_TIME_MAX").value else Some(Num(20)))
    ensures r.Ok? ==> r.value.Keys <= config.Keys + {"smtp_port", "wait_time_min", "wait_time_max"}
    ensures r.Ok? ==> forall k :: k != "smtp_port" && k != "wait_time_min" && k != "wait_time_max" ==> At(r.value, k) == At(config, k)
  {
    var port := EnvInt(env, "SMTP_PORT");
    if port.Err? {
      return Err(port.exc);
    }
    var d := config;
    if port.value.Some? {
      d := d["smtp_port" := port.value.value];
    }
    var low := EnvFloat(env, "WAIT_TIME_MIN");
    if low.Err? {
      return Err(low.exc);
    }
    if low.value.Some? {
      d := d["wait_time_min" := low.value.value];
    }
    var high := EnvFloat(env, "WAIT_TIME_MAX");
    if high.Err? {
      return Err(high.exc);
    }
    if high.value.Some? {
      d := d["wait_time_max" := high.value.value];
    }
    d := WithDefault(d, "wait_time_min", Num(15));
    d := WithDefault(d, "wait_time_max", Num(20));
    r := Ok(d);
  }

  /** `_load_from_env()`: the dict is filled one key at a time, then the waits get their defaults. */
  method LoadFromEnv(env: map<string, string>) returns (r: Result<Dict>)
    ensures FromEnv(env, r)
  {
    var texts := LoadTexts(env);
    r := LoadNumbers(env, texts);
  }

  // ---------------------------------------------------------------------------------------------
  // _validate_config
  // ---------------------------------------------------------------------------------------------

  /** `config.get(key)` is truthy. */
  predicate Filled(d: Dict, key: string) {
    key in d && Truthy(d[key])
  }

  /** The required-key check: ValueError naming the first key, in order, that is missing or falsy. */
  function Required(fields: Dict, keys: seq<string>): (r: Result<()>)
  {
    if keys == [] then Ok(())
    else if !Filled(fields, keys[0]) then Err(Exc(ValueError, MissingKey + keys[0]))
    else Required(fields, keys[1..])
  }

  /** The check fails exactly when some key is not filled, and then names the first such key. */
  lemma {:induction false} RequiredNamesFirst(fields: Dict, keys: seq<string>)
    ensures Required(fields, keys).Ok? <==> forall j :: 0 <= j < |keys| ==> Filled(fields, keys[j])
    ensures Required(fields, keys).Err? ==>
      exists j :: 0 <= j < |keys| && !Filled(fields, keys[j]) && (forall i :: 0 <= i < j ==> Filled(fields, keys[i]))
                  && Required(fields, keys).exc == Exc(ValueError, MissingKey + keys[j])
  {
    if keys != [] && Filled(fields, keys[0]) {
      RequiredNamesFirst(fields, keys[1..]);
      if Required(fields, keys[1..]).Err? {
        var j :| 0 <= j < |keys[1..]| && !Filled(fields, keys[1..][j]) && (forall i :: 0 <= i < j ==> Filled(fields, keys[1..][i]))
                 && Required(fields, keys[1..]).exc == Exc(ValueError, MissingKey + keys[1..][j]);
        assert forall i :: 0 <= i < j + 1 ==> Filled(fields, keys[i]) by {
          forall i | 0 <= i < j + 1 ensures Filled(fields, keys[i]) {
            if i > 0 {
              assert keys[i] == keys[1..][i - 1];
            }
          }
        }
        assert !Filled(fields, keys[j + 1]);
      } else {
        forall j | 0 <= j < |keys| ensures Filled(fields, keys[j]) {
          if j > 0 {
            assert keys[j] == keys[1..][j - 1];
          }
        }
      }
    } else if keys != [] {
      assert !Filled(fields, keys[0]);
    }
  }

  /** The four defaults `_validate_config` puts in, in order. */
  function WithDefaults(d: Dict): Dict {
    var d := WithDefault(d, "wait_time_min", Num(15));
    var d := WithDefault(d, "wait_time_max", Num(20));
    var d := WithDefault(d, "smtp_server", Str("smtp.gmail.com"));
    WithDefault(d, "smtp_port", Num(465))
  }

  /** The default `_validate_config` gives a key, if any. */
  function DefaultFor(key: string): Option<Json> {
    if key == "wait_time_min" then Some(Num(15))
    else if key == "wait_time_max" then Some(Num(20))
    else if key == "smtp_server" then Some(Str("smtp.gmail.com"))
    else if key == "smtp_port" then Some(Num(465))
    else None
  }

  /**
   * The defaults never overwrite: a key that was there keeps its value, the four defaulted keys are there
   * afterwards, and no other key appears.
   */
  lemma DefaultsKeep(d: Dict, key: string)
    ensures At(WithDefaults(d), key) == if key in d then At(d, key) else DefaultFor(key)
  {
  }

  /** A dict updated in place. */
  class DictObject {
    var fields: Dict

    constructor (fields: Dict)
      ensures this.fields == fields
    {
      this.fields := fields;
    }

    method SetDefault(key: string, v: Json)
      modifies this
      ensures fields == WithDefault(old(fields), key, v)
    {
      fields := WithDefault(fields, key, v);
    }
  }

  /**
   * `_validate_config(config)`: the required keys are checked in order; then the four defaults are set on the
   * dict itself.
   */
  method ValidateConfig(config: DictObject) returns (r: Result<()>)
    modifies config
    ensures r == Required(old(config.fields), RequiredKeys)
    ensures r.Ok? ==> config.fields == WithDefaults(old(config.fields))
    ensures r.Err? ==> config.fields == old(config.fields)
  {
    var keys := RequiredKeys;
    for i := 0 to |keys|
      invariant config.fields == old(config.fields)
      invariant Required(config.fields, keys) == Required(config.fields, keys[i..])
    {
      assert keys[i..][1..] == keys[i + 1..];
      if !Filled(config.fields, keys[i]) {
        return Err(Exc(ValueError, MissingKey + keys[i]));
      }
    }
    config.SetDefault("wait_time_min", Num(15));
    config.SetDefault("wait_time_max", Num(20));
    config.SetDefault("smtp_server", Str("smtp.gmail.com"));
    config.SetDefault("smtp_port", Num(465));
    r := Ok(());
  }

  // ---------------------------------------------------------------------------------------------
  // _load_from_file
  // ---------------------------------------------------------------------------------------------

  /**
   * The settings file as the loader finds it: absent, unreadable or not JSON (with the error `json.loads` or
   * `open` raises), or parsed.
   */
  datatype SettingsFile = Absent | Unreadable(exc: Exc) | Parsed(json: Json)

  /**
   * `_load_from_file()`: the parsed file, checked and completed with the defaults; whatever goes wrong,
   * `.get` on a file that is not a dict included, becomes RuntimeError("配置加载失败: …").
   */
  function FileConfig(file: SettingsFile): (r: Result<Dict>)
    ensures r.Err? ==> r.exc.kind == RuntimeError && StartsWith(r.exc.msg, LoadFailed)
    ensures r.Ok? <==> file.Parsed? && file.json.Obj? && Required(AsDict(file.json.fields), RequiredKeys).Ok?
    ensures r.Ok? ==> r.value == WithDefaults(AsDict(file.json.fields))
  {
    var wrap := (e: Exc) => Err(Runtime(LoadFailed + e.msg));
    match file
    case Absent => wrap(Exc(FileNotFoundError, "配置文件 " + SettingsPath + " 不存在"))
    case Unreadable(e) => wrap(e)
    case Parsed(json) =>
      match GetOr(json, RequiredKeys[0], Null)
      case Err(e) => wrap(e)
      case Ok(_) =>
        match Required(AsDict(json.fields), RequiredKeys)
        case Err(e) => wrap(e)
        case Ok(_) => Ok(WithDefaults(AsDict(json.fields)))
  }

  method LoadFromFile(file: SettingsFile) returns (r: Result<Dict>)
    ensures r == FileConfig(file)
  {
    match file
    case Absent =>
      return Err(Runtime(LoadFailed + "配置文件 " + SettingsPath + " 不存在"));
    case Unreadable(e) =>
      return Err(Runtime(LoadFailed + e.msg));
    case Parsed(json) =>
      var probe := GetOr(json, RequiredKeys[0], Null);
      if probe.Err? {
        return Err(Runtime(LoadFailed + probe.exc.msg));
      }
      var config := new DictObject(AsDict(json.fields));
      var checked := ValidateConfig(config);
      if checked.Err? {
        return Err(Runtime(LoadFailed + checked.exc.msg));
      }
      r := Ok(config.fields);
  }

  /** A file that names both cookies loads with its own values kept and the four defaults filled in. */
  lemma FileKeepsValues(file: SettingsFile, key: string)
    requires file.Parsed? && file.json.Obj?
    requires forall j :: 0 <= j < |RequiredKeys| ==> Filled(AsDict(file.json.fields), RequiredKeys[j])
    ensures FileConfig(file).Ok?
    ensures At(FileConfig(file).value, key)
            == if Lookup(file.json.fields, key).Some? then Lookup(file.json.fields, key) else DefaultFor(key)
  {
    RequiredNamesFirst(AsDict(file.json.fields), RequiredKeys);
    DefaultsKeep(AsDict(file.json.fields), key);
  }

  // ---------------------------------------------------------------------------------------------
  // Config
  // ---------------------------------------------------------------------------------------------

  /** The loaded settings. */
  class Config {
    const data: Dict

    constructor (data: Dict)
      ensures this.data == data
    {
      this.data := data;
    }

    /** `get(key, default)`: the stored value when the key is there, otherwise the default. */
    function Get(key: string, default: Json): (r: Json)
      ensures key in data ==> r == data[key]
      ensures key !in data ==> r == default
    {
      if key in data then data[key] else default
    }
  }

  /**
   * `Config()`: the environment when both cookies are set there, the settings file otherwise. A failure of
   * either path is raised out of the constructor.
   */
  method LoadConfig(env: map<string, string>, file: SettingsFile) returns (r: Result<Config>)
    ensures CheckEnv(env) ==> FromEnv(env, if r.Ok? then Ok(r.value.data) else Err(r.exc))
    ensures !CheckEnv(env) ==> (if r.Ok? then Ok(r.value.data) else Err(r.exc)) == FileConfig(file)
    ensures r.Ok? ==> fresh(r.value)
  {
    var data: Result<Dict>;
    if CheckEnv(env) {
      data := LoadFromEnv(env);
    } else {
      data := LoadFromFile(file);
    }
    if data.Err? {
      return Err(data.exc);
    }
    var config := new Config(data.value);
    r := Ok(config);
  }

  /** On the environment path both cookies are there and truthy, as the file path demands of a file. */
  lemma EnvHasCookies(env: map<string, string>, r: Result<Dict>)
    requires CheckEnv(env) && FromEnv(env, r) && r.Ok?
    ensures forall j :: 0 <= j < |RequiredKeys| ==> Filled(r.value, RequiredKeys[j])
  {
  }
}
