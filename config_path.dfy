/**
 * `get_config_path`: where the configuration file is looked for.
 *
 * The process environment is a parameter. A variable that is unset and one
 * whose value is not valid Unicode make `env::var` fail alike, and the source
 * treats every failure the same way, so both are simply absent from the map.
 */
module ConfigPath {
  import opened Wrappers

  type Env = map<string, string>

  /** Appended to the chosen configuration directory. */
  const ConfigFile := "/idyllic/idyllic.json"

  /** Appended to a home directory to obtain a configuration directory. */
  const DotConfig := "/.config"

  /** The message of the failure when no base directory can be found. */
  const NoConfigDir := "Unable to find config directory"

  /** `env::var(name)`. */
  function Var(env: Env, name: string): (r: Result<string>)
    ensures r.Ok? <==> name in env
    ensures r.Ok? ==> r.value == env[name]
  {
    if name in env then Ok(env[name]) else Err("environment variable not found")
  }

  /**
   * The configuration directory: `XDG_CONFIG_HOME`, else `XDG_HOME` or else
   * `HOME` followed by `/.config`.
   */
  function ConfigDir(env: Env): (r: Result<string>)
    ensures "XDG_CONFIG_HOME" in env ==> r == Ok(env["XDG_CONFIG_HOME"])
    ensures "XDG_CONFIG_HOME" !in env && "XDG_HOME" in env ==> r == Ok(env["XDG_HOME"] + DotConfig)
    ensures "XDG_CONFIG_HOME" !in env && "XDG_HOME" !in env && "HOME" in env ==>
      r == Ok(env["HOME"] + DotConfig)
    ensures r.Err? <==> "XDG_CONFIG_HOME" !in env && "XDG_HOME" !in env && "HOME" !in env
    ensures r.Err? ==> r.error == NoConfigDir
  {
    match Var(env, "XDG_CONFIG_HOME")
    case Ok(dir) => Ok(dir)
    case Err(_) =>
      var home := Var(env, "XDG_HOME").Or(Var(env, "HOME")).Context(NoConfigDir);
      if home.Err? then Err(home.error) else Ok(home.value + DotConfig)
  }

  /** `get_config_path`: the configuration directory followed by `/idyllic/idyllic.json`. */
  function GetConfigPath(env: Env): (r: Result<string>)
    ensures "XDG_CONFIG_HOME" in env ==>
      r == Ok(env["XDG_CONFIG_HOME"] + ConfigFile)
    ensures "XDG_CONFIG_HOME" !in env && "XDG_HOME" in env ==>
      r == Ok(env["XDG_HOME"] + DotConfig + ConfigFile)
    ensures "XDG_CONFIG_HOME" !in env && "XDG_HOME" !in env && "HOME" in env ==>
      r == Ok(env["HOME"] + DotConfig + ConfigFile)
    ensures r.Err? <==> "XDG_CONFIG_HOME" !in env && "XDG_HOME" !in env && "HOME" !in env
    ensures r.Err? ==> r.error == NoConfigDir
  {
    var dir := ConfigDir(env);
    if dir.Err? then Err(dir.error) else Ok(dir.value + ConfigFile)
  }

  /** Every path found ends with `/idyllic/idyllic.json`. */
  lemma PathEndsWithConfigFile(env: Env)
    requires GetConfigPath(env).Ok?
    ensures var p := GetConfigPath(env).value;
      |p| >= |ConfigFile| && p[|p| - |ConfigFile|..] == ConfigFile
  {
  }

  /** Only the three variables matter; everything else in the environment is ignored. */
  lemma OnlyThreeVariables(env: Env, env': Env)
    requires forall name :: name in {"XDG_CONFIG_HOME", "XDG_HOME", "HOME"} ==>
      (name in env <==> name in env') && (name in env ==> env[name] == env'[name])
    ensures GetConfigPath(env) == GetConfigPath(env')
  {
  }

  /** Values are used verbatim: an empty `XDG_CONFIG_HOME` gives a path at the root. */
  lemma EmptyConfigHomeUsedVerbatim(env: Env)
    requires "XDG_CONFIG_HOME" in env && env["XDG_CONFIG_HOME"] == ""
    ensures GetConfigPath(env) == Ok("/idyllic/idyllic.json")
  {
    assert "" + ConfigFile == "/idyllic/idyllic.json";
  }

  /** Values are used verbatim: a `HOME` ending in `/` is kept as it is, giving `//`. */
  lemma TrailingSlashKept(env: Env)
    requires "XDG_CONFIG_HOME" !in env && "XDG_HOME" !in env && "HOME" in env
    requires var h := env["HOME"]; |h| > 0 && h[|h| - 1] == '/'
    ensures var h, p := env["HOME"], GetConfigPath(env).value;
      GetConfigPath(env).Ok? && |p| > |h| && p[..|h|] == h && p[|h| - 1..|h| + 1] == "//"
  {
    var h, p := env["HOME"], GetConfigPath(env).value;
    assert p == h + DotConfig + ConfigFile;
    assert p[|h|] == DotConfig[0] == '/';
  }
}
