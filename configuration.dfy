/** Configuration resolution of trans-go (internal/config/config.go).

    The configuration comes from three layers: zero values, the TOML file
    found through XDG_CONFIG_HOME or HOME, and the environment variables
    OPENAI_API_BASE_URL, OPENAI_API_KEY, MODEL and TEMPERATURE. The process
    environment is a map, the file system is the map from each path that
    decodes to its decoded contents, and float parsing is an abstract
    partial function. */
module Configuration {
  import opened Wrappers

  /** The environment as os.LookupEnv sees it: a variable is either present,
      possibly with the empty string as value, or absent. */
  type Env = map<string, string>

  /** A Go float64, carried as its IEEE 754 bit pattern; nothing here does
      arithmetic on it. */
  datatype Float64 = Float64(bits: bv64)

  /** Go's zero value for float64: all bits clear. */
  const ZeroFloat: Float64 := Float64(0)

  /** The keys of config.toml. */
  datatype TomlConfig = TomlConfig(baseUrl: string, apiKey: string, model: string, temperature: Float64)

  /** The resolved configuration: the TOML fields (embedded in Go), the path
      of the file they came from, and the Optimize and Verbose settings that
      the translator reads. */
  datatype Config = Config(
    baseUrl: string,
    apiKey: string,
    model: string,
    temperature: Float64,
    configPath: string,
    optimize: int,
    verbose: bool)

  /** Go's zero value for Config. */
  const ZeroConfig: Config := Config("", "", "", ZeroFloat, "", 0, false)

  /** The decoded contents of every path that toml.DecodeFile accepts; a path
      missing from the map is one whose decoding fails (missing file,
      unreadable file or bad TOML). */
  type Files = map<string, TomlConfig>

  /** strconv.ParseFloat(s, 64): Some(value) on success, None on error. */
  type FloatParser = string -> Option<Float64>

  /** The two ways resolution ends the process. */
  datatype ConfigError =
    | TomlDecodeFailed(path: string)      // log.Fatal after toml.DecodeFile fails
    | TemperatureUnparsable(text: string) // panic when TEMPERATURE is not a float

  const XdgConfigHome: string := "XDG_CONFIG_HOME"
  const Home: string := "HOME"
  const BaseUrlVar: string := "OPENAI_API_BASE_URL"
  const ApiKeyVar: string := "OPENAI_API_KEY"
  const ModelVar: string := "MODEL"
  const TemperatureVar: string := "TEMPERATURE"

  /** The variables NewConfig consults, in the order it consults them. */
  const OverrideVars: seq<string> := [BaseUrlVar, ApiKeyVar, ModelVar, TemperatureVar]

  /** The config path DefaultConfig settles on; "" stands for "no path". */
  function ConfigPathOf(env: Env): string
  {
    if XdgConfigHome in env then env[XdgConfigHome] + "/trans-go/config.toml"
    else if Home in env then env[Home] + "/.trans-go/config.toml"
    else ""
  }

  /** What DefaultConfig yields: no configuration (nil), the configuration
      read from the file, or the decoding failure that ends the process. */
  function Loaded(env: Env, files: Files): Result<Option<Config>, ConfigError>
  {
    var path := ConfigPathOf(env);
    if path == "" then Success(None)
    else if path !in files then Failure(TomlDecodeFailed(path))
    else
      var t := files[path];
      Success(Some(Config(t.baseUrl, t.apiKey, t.model, t.temperature, path, 0, false)))
  }

  /** DefaultConfig: pick the config path, then decode the file found there. */
  method DefaultConfig(env: Env, files: Files) returns (r: Result<Option<Config>, ConfigError>)
    ensures r == Loaded(env, files)
  {
    var configPath := "";
    if XdgConfigHome in env {
      configPath := env[XdgConfigHome] + "/trans-go/config.toml";
    } else if Home in env {
      configPath := env[Home] + "/.trans-go/config.toml";
    }
    if configPath == "" {
      return Success(None);
    }
    if configPath !in files {
      return Failure(TomlDecodeFailed(configPath));
    }
    var toml := files[configPath];
    r := Success(Some(Config(toml.baseUrl, toml.apiKey, toml.model, toml.temperature, configPath, 0, false)));
  }

  /** One `if v, ok := os.LookupEnv(name); ok { ... }` block of NewConfig,
      applied to the value v found for name. */
  function Override(c: Config, name: string, v: string, parse: FloatParser): (r: Result<Config, ConfigError>)
    ensures r.Failure? <==> name == TemperatureVar && parse(v).None?
    ensures r.Failure? ==> r.error == TemperatureUnparsable(v)
    ensures r.Success? ==> r.value.configPath == c.configPath && r.value.optimize == c.optimize && r.value.verbose == c.verbose
    ensures r.Success? ==> r.value.baseUrl == (if name == BaseUrlVar then v else c.baseUrl)
    ensures r.Success? ==> r.value.apiKey == (if name == ApiKeyVar then v else c.apiKey)
    ensures r.Success? ==> r.value.model == (if name == ModelVar then v else c.model)
    ensures r.Success? ==> r.value.temperature == (if name == TemperatureVar then parse(v).value else c.temperature)
  {
    if name == BaseUrlVar then Success(c.(baseUrl := v))
    else if name == ApiKeyVar then Success(c.(apiKey := v))
    else if name == ModelVar then Success(c.(model := v))
    else if name == TemperatureVar then
      match parse(v)
      case Some(t) => Success(c.(temperature := t))
      case None => Failure(TemperatureUnparsable(v))
    else Success(c)
  }

  /** The override chain: every listed variable present in env overrides its
      own field, in list order; the first failure ends the chain. */
  function ApplyEnv(c: Config, env: Env, names: seq<string>, parse: FloatParser): (r: Result<Config, ConfigError>)
    ensures r.Success? ==> r.value.configPath == c.configPath && r.value.optimize == c.optimize && r.value.verbose == c.verbose
    ensures (forall i | 0 <= i < |names| :: names[i] !in env) ==> r == Success(c)
    decreases |names|
  {
    if names == [] then Success(c)
    else if names[0] !in env then ApplyEnv(c, env, names[1..], parse)
    else
      match Override(c, names[0], env[names[0]], parse)
      case Failure(e) => Failure(e)
      case Success(next) => ApplyEnv(next, env, names[1..], parse)
  }

  /** NewConfig as a whole: the file layer (or zero values), then the
      environment layer. */
  function Resolve(env: Env, files: Files, parse: FloatParser): Result<Config, ConfigError>
  {
    match Loaded(env, files)
    case Failure(e) => Failure(e)
    case Success(loaded) =>
      var base := if loaded.Some? then loaded.value else ZeroConfig;
      ApplyEnv(base, env, OverrideVars, parse)
  }

  /** NewConfig: start from DefaultConfig's result or from zero values, then
      let each environment variable that is present overwrite its field. */
  method NewConfig(env: Env, files: Files, parse: FloatParser) returns (r: Result<Config, ConfigError>)
    ensures r == Resolve(env, files, parse)
  {
    var loaded := DefaultConfig(env, files);
    if loaded.Failure? {
      return Failure(loaded.error);
    }
    var config := if loaded.value.Some? then loaded.value.value else ZeroConfig;
    ghost var base := config;
    if BaseUrlVar in env {
      config := config.(baseUrl := env[BaseUrlVar]);
    }
    if ApiKeyVar in env {
      config := config.(apiKey := env[ApiKeyVar]);
    }
    if ModelVar in env {
      config := config.(model := env[ModelVar]);
    }
    if TemperatureVar in env {
      var ts := env[TemperatureVar];
      var t := parse(ts);
      if t.Some? {
        config := config.(temperature := t.value);
      } else {
        r := Failure(TemperatureUnparsable(ts));
        ChainFields(base, env, parse);
        return;
      }
    }
    r := Success(config);
    ChainFields(base, env, parse);
  }

  /** The override chain in closed form: each field is the environment value
      when its variable is present (even as ""), and the starting value
      otherwise; only an unparsable TEMPERATURE makes it fail. */
  lemma {:induction false} ChainFields(c: Config, env: Env, parse: FloatParser)
    ensures var r := ApplyEnv(c, env, OverrideVars, parse);
      && (r.Failure? <==> TemperatureVar in env && parse(env[TemperatureVar]).None?)
      && (r.Failure? ==> r.error == TemperatureUnparsable(env[TemperatureVar]))
      && (r.Success? ==>
            r.value == c.(
              baseUrl := if BaseUrlVar in env then env[BaseUrlVar] else c.baseUrl,
              apiKey := if ApiKeyVar in env then env[ApiKeyVar] else c.apiKey,
              model := if ModelVar in env then env[ModelVar] else c.model,
              temperature := if TemperatureVar in env then parse(env[TemperatureVar]).value else c.temperature))
  {
    var n := OverrideVars;
    assert n[1..] == [ApiKeyVar, ModelVar, TemperatureVar];
    assert n[2..] == [ModelVar, TemperatureVar];
    assert n[3..] == [TemperatureVar];
    var c1 := if BaseUrlVar in env then c.(baseUrl := env[BaseUrlVar]) else c;
    assert ApplyEnv(c, env, n, parse) == ApplyEnv(c1, env, n[1..], parse);
    var c2 := if ApiKeyVar in env then c1.(apiKey := env[ApiKeyVar]) else c1;
    assert ApplyEnv(c1, env, n[1..], parse) == ApplyEnv(c2, env, n[2..], parse) by {
      assert n[1..][1..] == n[2..];
    }
    var c3 := if ModelVar in env then c2.(model := env[ModelVar]) else c2;
    assert ApplyEnv(c2, env, n[2..], parse) == ApplyEnv(c3, env, n[3..], parse) by {
      assert n[2..][1..] == n[3..];
    }
    assert ApplyEnv(c3, env, n[3..], parse) ==
      if TemperatureVar !in env then Success(c3)
      else match parse(env[TemperatureVar])
        case Some(t) => Success(c3.(temperature := t))
        case None => Failure(TemperatureUnparsable(env[TemperatureVar]))
    by {
      assert n[3..][1..] == [];
    }
  }

  /** XDG_CONFIG_HOME, when present, decides the path whatever HOME holds. */
  lemma XdgTakesPrecedence(env: Env)
    requires XdgConfigHome in env
    ensures ConfigPathOf(env) == env[XdgConfigHome] + "/trans-go/config.toml"
  {
  }

  /** Without XDG_CONFIG_HOME, a present HOME decides the path. */
  lemma HomeIsFallback(env: Env)
    requires XdgConfigHome !in env && Home in env
    ensures ConfigPathOf(env) == env[Home] + "/.trans-go/config.toml"
  {
  }

  /** With neither variable, no file is read and resolution starts from zero
      values with an empty ConfigPath. */
  lemma NoVariablesNoFile(env: Env, files: Files, parse: FloatParser)
    requires XdgConfigHome !in env && Home !in env
    ensures Loaded(env, files) == Success(None)
    ensures Resolve(env, files, parse) == ApplyEnv(ZeroConfig, env, OverrideVars, parse)
    ensures Resolve(env, files, parse).Success? ==> Resolve(env, files, parse).value.configPath == ""
  {
  }

  /** A present variable, even an empty one, yields a non-empty path, and the
      file at that path is consulted: its contents or the fatal decode error. */
  lemma SetVariableConsultsFile(env: Env, files: Files)
    requires XdgConfigHome in env || Home in env
    ensures ConfigPathOf(env) != ""
    ensures var path := ConfigPathOf(env);
      Loaded(env, files) ==
        if path in files then
          Success(Some(Config(files[path].baseUrl, files[path].apiKey, files[path].model, files[path].temperature, path, 0, false)))
        else Failure(TomlDecodeFailed(path))
  {
  }

  /** A file that does not decode ends resolution before any environment
      variable is looked at, an unparsable TEMPERATURE included. */
  lemma DecodeFailureComesFirst(env: Env, files: Files, parse: FloatParser)
    requires ConfigPathOf(env) != "" && ConfigPathOf(env) !in files
    ensures Resolve(env, files, parse) == Failure(TomlDecodeFailed(ConfigPathOf(env)))
  {
  }

  /** The contents an absent config file stands for: Go's zero values. */
  const ZeroToml: TomlConfig := TomlConfig("", "", "", ZeroFloat)

  /** The three layers in closed form: for each variable, the environment
      value when present (even as ""), else the file value, else zero; the
      path is the one DefaultConfig chose; only an unparsable TEMPERATURE
      fails once the file has been read. */
  lemma ResolveFields(env: Env, files: Files, parse: FloatParser)
    requires ConfigPathOf(env) == "" || ConfigPathOf(env) in files
    ensures var path := ConfigPathOf(env);
      var file := if path == "" then ZeroToml else files[path];
      var r := Resolve(env, files, parse);
      && (r.Failure? <==> TemperatureVar in env && parse(env[TemperatureVar]).None?)
      && (r.Failure? ==> r.error == TemperatureUnparsable(env[TemperatureVar]))
      && (r.Success? ==>
            && r.value.baseUrl == (if BaseUrlVar in env then env[BaseUrlVar] else file.baseUrl)
            && r.value.apiKey == (if ApiKeyVar in env then env[ApiKeyVar] else file.apiKey)
            && r.value.model == (if ModelVar in env then env[ModelVar] else file.model)
            && r.value.temperature == (if TemperatureVar in env then parse(env[TemperatureVar]).value else file.temperature)
            && r.value.configPath == path
            && r.value.optimize == 0 && !r.value.verbose)
  {
    var path := ConfigPathOf(env);
    var base := if path == "" then ZeroConfig else
      Config(files[path].baseUrl, files[path].apiKey, files[path].model, files[path].temperature, path, 0, false);
    assert Resolve(env, files, parse) == ApplyEnv(base, env, OverrideVars, parse);
    ChainFields(base, env, parse);
  }

  /** Each variable touches only its own field, so overriding two different
      variables gives the same result in either order. */
  lemma OverridesCommute(c: Config, n1: string, v1: string, n2: string, v2: string, parse: FloatParser)
    requires n1 != n2
    ensures (match Override(c, n1, v1, parse)
             case Failure(e) => Failure(e)
             case Success(c1) => Override(c1, n2, v2, parse))
         == (match Override(c, n2, v2, parse)
             case Failure(e) => Failure(e)
             case Success(c2) => Override(c2, n1, v1, parse))
  {
  }
}
