/**
 * The older settings loader (`Config` of config.py): the environment when both cookies are set there,
 * otherwise setting.json, which must name both cookies. Nothing is defaulted, and `get` refuses a setting
 * that is missing or empty.
 */
module LegacySettings {
  import opened Common
  import opened Json
  import opened Settings

  const LegacyPath := "setting.json"
  const NoSetting := "无法获取配置项: "

  /**
   * `_load_from_env()` of the older loader: six keys, each bound to its variable's text or to `None` when the
   * variable is not set.
   */
  function LegacyEnvConfig(env: map<string, string>): (d: Dict)
    ensures d.Keys == {"Cookie_MUSIC_U", "Cookie___csrf", "notify_email", "email_password", "smtp_server", "smtp_port"}
  {
    map["Cookie_MUSIC_U" := EnvJson(env, "MUSIC_U"),
        "Cookie___csrf" := EnvJson(env, "CSRF"),
        "notify_email" := EnvJson(env, "NOTIFY_EMAIL"),
        "email_password" := EnvJson(env, "EMAIL_PASSWORD"),
        "smtp_server" := EnvJson(env, "SMTP_SERVER"),
        "smtp_port" := EnvJson(env, "SMTP_PORT")]
  }

  /**
   * `_load_from_file()` of the older loader: the parsed file as it is, once both cookies are found truthy;
   * whatever goes wrong, `.get` on a file that is not a dict included, becomes RuntimeError("配置加载失败: …").
   */
  function LegacyFileConfig(file: SettingsFile): (r: Result<Dict>)
    ensures r.Err? ==> r.exc.kind == RuntimeError && StartsWith(r.exc.msg, LoadFailed)
    ensures r.Ok? <==> file.Parsed? && file.json.Obj? && Required(AsDict(file.json.fields), RequiredKeys).Ok?
    ensures r.Ok? ==> r.value == AsDict(file.json.fields)
  {
    var wrap := (e: Exc) => Err(Runtime(LoadFailed + e.msg));
    match file
    case Absent => wrap(Exc(FileNotFoundError, "配置文件 " + LegacyPath + " 不存在"))
    case Unreadable(e) => wrap(e)
    case Parsed(json) =>
      match GetOr(json, RequiredKeys[0], Null)
      case Err(e) => wrap(e)
      case Ok(_) =>
        match Required(AsDict(json.fields), RequiredKeys)
        case Err(e) => wrap(e)
        case Ok(_) => Ok(AsDict(json.fields))
  }

  /** `_load_config()` of the older loader: the environment when both cookies are set there, the file otherwise. */
  function LegacyLoad(env: map<string, string>, file: SettingsFile): Result<Dict> {
    if CheckEnv(env) then Ok(LegacyEnvConfig(env)) else LegacyFileConfig(file)
  }

  /** `get(key)` of the older loader: the stored value, or ValueError when it is missing or falsy. */
  function LegacyGet(data: Dict, key: string): (r: Result<Json>)
    ensures r.Ok? <==> Filled(data, key)
    ensures r.Ok? ==> r.value == data[key]
    ensures r.Err? ==> r.exc == Exc(ValueError, NoSetting + key)
  {
    var value := if key in data then data[key] else Str("");
    if !Truthy(value) then Err(Exc(ValueError, NoSetting + key)) else Ok(value)
  }

  /** The loaded settings of the older loader. */
  class LegacyConfig {
    const data: Dict

    constructor (data: Dict)
      ensures this.data == data
    {
      this.data := data;
    }

    function Get(key: string): Result<Json> {
      LegacyGet(data, key)
    }
  }

  /** `Config()` of the older loader: a failure of either path is raised out of the constructor. */
  method LegacyLoadConfig(env: map<string, string>, file: SettingsFile) returns (r: Result<LegacyConfig>)
    ensures (if r.Ok? then Ok(r.value.data) else Err(r.exc)) == LegacyLoad(env, file)
    ensures r.Ok? ==> fresh(r.value)
  {
    var data: Result<Dict>;
    if CheckEnv(env) {
      data := Ok(LegacyEnvConfig(env));
    } else {
      data := LegacyFileConfig(file);
    }
    if data.Err? {
      return Err(data.exc);
    }
    var config := new LegacyConfig(data.value);
    r := Ok(config);
  }

  /**
   * On the environment path a setting can be read exactly when its variable is set and not empty, and then
   * it is the variable's text; the two cookies can always be read there.
   */
  lemma LegacyEnvGet(env: map<string, string>, key: string, name: string)
    requires (key, name) in {("Cookie_MUSIC_U", "MUSIC_U"), ("Cookie___csrf", "CSRF"), ("notify_email", "NOTIFY_EMAIL"),
                             ("email_password", "EMAIL_PASSWORD"), ("smtp_server", "SMTP_SERVER"), ("smtp_port", "SMTP_PORT")}
    ensures var r := LegacyGet(LegacyEnvConfig(env), key);
      && (r.Ok? <==> EnvSet(env, name))
      && (r.Ok? ==> r.value == Str(env[name]))
  {
  }

  /** Whichever path loaded them, the older settings give both cookies to `get`. */
  lemma LegacyCookiesReadable(env: map<string, string>, file: SettingsFile)
    requires LegacyLoad(env, file).Ok?
    ensures LegacyGet(LegacyLoad(env, file).value, "Cookie_MUSIC_U").Ok?
    ensures LegacyGet(LegacyLoad(env, file).value, "Cookie___csrf").Ok?
  {
    if !CheckEnv(env) {
      RequiredNamesFirst(AsDict(file.json.fields), RequiredKeys);
      assert Filled(AsDict(file.json.fields), RequiredKeys[0]);
      assert Filled(AsDict(file.json.fields), RequiredKeys[1]);
    }
  }

  /**
   * The newer loader reads a file the same way, apart from the file's name: it accepts the same files and
   * adds only the four defaults to what the older one returns.
   */
  lemma FileAsLegacy(file: SettingsFile)
    requires file.Parsed? || file.Unreadable?
    ensures FileConfig(file).Ok? <==> LegacyFileConfig(file).Ok?
    ensures FileConfig(file).Ok? ==> FileConfig(file).value == WithDefaults(LegacyFileConfig(file).value)
    ensures FileConfig(file).Err? ==> FileConfig(file).exc == LegacyFileConfig(file).exc
  {
  }

  /**
   * On the environment path the older loader binds every one of its six keys, `None` for an unset variable,
   * where the newer one leaves an unset or empty optional setting out; the cookies are the same.
   */
  lemma EnvAsLegacy(env: map<string, string>, r: Result<Dict>)
    requires FromEnv(env, r) && r.Ok?
    ensures At(r.value, "Cookie_MUSIC_U") == At(LegacyEnvConfig(env), "Cookie_MUSIC_U")
    ensures At(r.value, "Cookie___csrf") == At(LegacyEnvConfig(env), "Cookie___csrf")
    ensures forall key | key in {"notify_email", "email_password", "smtp_server"} ::
      Filled(r.value, key) <==> Filled(LegacyEnvConfig(env), key)
  {
  }
}
