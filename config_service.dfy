/**
 * The configuration service of ng-config (projects/ng-config/src/lib/config.service.ts).
 *
 * `Get` resolves the effective configuration: it requests `assets/configs/config.json`,
 * then `assets/configs/env.json`, and, when the latter names a non-empty environment,
 * `assets/configs/config.<env>.json`, whose keys are shallow-merged over the base.
 * The HTTP client is a parameter; `Get` reports the result together with the paths it
 * requested, in order, so that the request sequence can be stated and proved.
 */
module ConfigService {
  import opened Wrappers

  // ---------------------------------------------------------------------------
  // Data model
  // ---------------------------------------------------------------------------

  /** A configuration document: its top-level keys and their (untouched) values. */
  type Doc<V> = map<string, V>

  /**
   * `env.json` as the service reads it, through the type `{ env: string }`:
   * `None` when the `env` field is absent (undefined in JavaScript).
   * A JSON `null` in that field would pass the undefined check and, being falsy,
   * select the base configuration like `""` does; this model admits only strings.
   */
  datatype EnvJson = EnvJson(env: Option<string>)

  /** The failure a request reports: its HTTP status and its error payload. */
  datatype HttpErrorResponse = HttpErrorResponse(status: int, error: string)

  /** Why `Get` fails: a request failed (passed through as is), or env.json has no `env`. */
  datatype ConfigError =
    | Http(response: HttpErrorResponse)
    | MissingEnv(message: string)

  /**
   * The HTTP client as the service uses it: `get` answers a path with a parsed
   * configuration document, `getEnv` answers a path with env.json's `env` field
   * (the two instantiations `http.get<T>` and `http.get<{ env: string }>`).
   */
  datatype HttpClient<V> = HttpClient(
    get: string -> Result<Doc<V>, HttpErrorResponse>,
    getEnv: string -> Result<EnvJson, HttpErrorResponse>)

  /** What one call of `Get` produces: its result and the paths it requested, in order. */
  datatype Outcome<V> = Outcome(result: Result<Doc<V>, ConfigError>, requested: seq<string>)

  // ---------------------------------------------------------------------------
  // Paths
  // ---------------------------------------------------------------------------

  const ConfigBase: string := "config.json"
  const EnvFile: string := "env.json"
  const ConfigsFolder: string := "assets/configs"
  const ConfigBaseUrl: string := ConfigsFolder + "/" + ConfigBase
  const EnvUrl: string := ConfigsFolder + "/" + EnvFile

  const RuntimePrefix: string := ConfigsFolder + "/config."
  const RuntimeSuffix: string := ".json"

  /** The path of the override document of environment `env`. */
  function ConfigRuntimeUrl(env: string): (url: string)
    ensures |url| == |RuntimePrefix| + |env| + |RuntimeSuffix|
    ensures url[..|RuntimePrefix|] == RuntimePrefix
    ensures url[|url| - |RuntimeSuffix|..] == RuntimeSuffix
    ensures url[|RuntimePrefix|..|url| - |RuntimeSuffix|] == env
  {
    RuntimePrefix + env + RuntimeSuffix
  }

  /** Reads the environment name back out of an override path; the inverse of ConfigRuntimeUrl. */
  function EnvOfRuntimeUrl(url: string): (env: Option<string>)
    ensures env.Some? ==> ConfigRuntimeUrl(env.value) == url
  {
    if |RuntimePrefix| + |RuntimeSuffix| <= |url|
       && url[..|RuntimePrefix|] == RuntimePrefix
       && url[|url| - |RuntimeSuffix|..] == RuntimeSuffix
    then
      var env := url[|RuntimePrefix|..|url| - |RuntimeSuffix|];
      assert url == RuntimePrefix + env + RuntimeSuffix;
      Some(env)
    else None
  }

  const MissingEnvMessage: string :=
    "missing env value in env.json, env.json should have \"env\": \"\" or \"env\": \"prod\" defined"

  // ---------------------------------------------------------------------------
  // Operations
  // ---------------------------------------------------------------------------

  /** Rejects an absent `env` field; any string, the empty one included, is accepted. */
  function HandleEnv(env: Option<string>): (r: Result<string, ConfigError>)
    ensures r.Success? <==> env.Some?
    ensures r.Success? ==> r.value == env.value
    ensures r.Failure? ==> r.error == MissingEnv(MissingEnvMessage)
  {
    match env
    case None => Failure(MissingEnv(MissingEnvMessage))
    case Some(e) => Success(e)
  }

  /**
   * JavaScript's `Object.assign(target, ...sources)`: copies the keys of each source
   * onto the target, left to right, so a later source overwrites an earlier one.
   */
  function Assign<V>(target: Doc<V>, sources: seq<Doc<V>>): (r: Doc<V>)
    ensures forall k :: k in r <==> k in target || exists i :: 0 <= i < |sources| && k in sources[i]
    ensures forall i, k :: 0 <= i < |sources| && k in sources[i]
                           && (forall j :: i < j < |sources| ==> k !in sources[j])
                           ==> k in r && r[k] == sources[i][k]
    ensures forall k :: k in target && (forall j :: 0 <= j < |sources| ==> k !in sources[j])
                        ==> k in r && r[k] == target[k]
    decreases |sources|
  {
    if sources == [] then target else Assign(target + sources[0], sources[1..])
  }

  /**
   * `Object.assign({}, base, override)` is the right-biased union of the two documents:
   * the override's keys win, the base's other keys stay, and no other key appears.
   */
  lemma AssignOverEmptyIsUnion<V>(baseConfig: Doc<V>, envConfig: Doc<V>)
    ensures Assign(map[], [baseConfig, envConfig]) == baseConfig + envConfig
  {
  }

  /** The shallow merge of `get`: a fresh object with the base's keys, then the override's. */
  function ShallowMerge<V>(baseConfig: Doc<V>, envConfig: Doc<V>): (r: Doc<V>)
    ensures r == baseConfig + envConfig
  {
    AssignOverEmptyIsUnion(baseConfig, envConfig);
    Assign(map[], [baseConfig, envConfig])
  }

  /**
   * `ConfigService.get`: the chain of requests, the env branch and the merge.
   * A failed request ends the chain with that request's error, unchanged.
   */
  function Get<V>(http: HttpClient<V>): (o: Outcome<V>)
    ensures 1 <= |o.requested| <= 3
    ensures o.requested[0] == ConfigBaseUrl
    ensures |o.requested| >= 2 ==> o.requested[1] == EnvUrl
    ensures |o.requested| == 3 ==> EnvOfRuntimeUrl(o.requested[2]).Some?
    ensures forall i, j :: 0 <= i < j < |o.requested| ==> o.requested[i] != o.requested[j]
  {
    match http.get(ConfigBaseUrl)
    case Failure(e) => Outcome(Failure(Http(e)), [ConfigBaseUrl])
    case Success(baseConfig) =>
      match http.getEnv(EnvUrl)
      case Failure(e) => Outcome(Failure(Http(e)), [ConfigBaseUrl, EnvUrl])
      case Success(envJson) =>
        match HandleEnv(envJson.env)
        case Failure(err) => Outcome(Failure(err), [ConfigBaseUrl, EnvUrl])
        case Success(env) =>
          if env != "" then
            var url := ConfigRuntimeUrl(env);
            match http.get(url)
            case Failure(e) => Outcome(Failure(Http(e)), [ConfigBaseUrl, EnvUrl, url])
            case Success(envConfig) =>
              Outcome(Success(ShallowMerge(baseConfig, envConfig)), [ConfigBaseUrl, EnvUrl, url])
          else
            Outcome(Success(baseConfig), [ConfigBaseUrl, EnvUrl])
  }
}
