/**
 * Properties of `ConfigService.Get`: the shallow merge, the env branch, the pass-through
 * of failed requests, and the order of the requests.
 */
module ConfigServiceProperties {
  import opened Wrappers
  import opened ConfigService

  // ---------------------------------------------------------------------------
  // Paths
  // ---------------------------------------------------------------------------

  /** The environment name can be read back from the override path built from it. */
  lemma RuntimeUrlRoundTrip(env: string)
    ensures EnvOfRuntimeUrl(ConfigRuntimeUrl(env)) == Some(env)
  {
  }

  /** Distinct environments select distinct override files. */
  lemma RuntimeUrlInjective(env1: string, env2: string)
    ensures ConfigRuntimeUrl(env1) == ConfigRuntimeUrl(env2) <==> env1 == env2
  {
  }

  /** No override path is the base path or the env.json path. */
  lemma RuntimeUrlIsNotFixedUrl(env: string)
    ensures ConfigRuntimeUrl(env) != ConfigBaseUrl
    ensures ConfigRuntimeUrl(env) != EnvUrl
  {
  }

  // ---------------------------------------------------------------------------
  // Get, case by case
  // ---------------------------------------------------------------------------

  /**
   * With a non-empty env, the result has every key of the override with the override's
   * value, every other key of the base with the base's value, and no other key; the three
   * paths were requested in order.
   */
  lemma GetMergesOverride<V>(http: HttpClient<V>, baseConfig: Doc<V>, env: string, envConfig: Doc<V>)
    requires http.get(ConfigBaseUrl) == Success(baseConfig)
    requires http.getEnv(EnvUrl) == Success(EnvJson(Some(env)))
    requires env != ""
    requires http.get(ConfigRuntimeUrl(env)) == Success(envConfig)
    ensures Get(http).requested == [ConfigBaseUrl, EnvUrl, ConfigRuntimeUrl(env)]
    ensures Get(http).result.Success?
    ensures forall k :: k in envConfig ==> k in Get(http).result.value && Get(http).result.value[k] == envConfig[k]
    ensures forall k :: k in baseConfig && k !in envConfig ==> k in Get(http).result.value && Get(http).result.value[k] == baseConfig[k]
    ensures Get(http).result.value.Keys == baseConfig.Keys + envConfig.Keys
  {
  }

  /** With `env` equal to "", the result is the base configuration and only two paths are requested. */
  lemma GetEmptyEnvReturnsBase<V>(http: HttpClient<V>, baseConfig: Doc<V>)
    requires http.get(ConfigBaseUrl) == Success(baseConfig)
    requires http.getEnv(EnvUrl) == Success(EnvJson(Some("")))
    ensures Get(http) == Outcome(Success(baseConfig), [ConfigBaseUrl, EnvUrl])
  {
  }

  /** With no `env` field, `Get` fails with the local error and requests no override. */
  lemma GetMissingEnvFails<V>(http: HttpClient<V>, baseConfig: Doc<V>)
    requires http.get(ConfigBaseUrl) == Success(baseConfig)
    requires http.getEnv(EnvUrl) == Success(EnvJson(None))
    ensures Get(http) == Outcome(Failure(MissingEnv(MissingEnvMessage)), [ConfigBaseUrl, EnvUrl])
  {
  }

  /** A failed base request is the result, unchanged, and nothing else is requested. */
  lemma GetBaseFailurePassesThrough<V>(http: HttpClient<V>, e: HttpErrorResponse)
    requires http.get(ConfigBaseUrl) == Failure(e)
    ensures Get(http) == Outcome(Failure(Http(e)), [ConfigBaseUrl])
  {
  }

  /** A failed env.json request is the result, unchanged, and no override is requested. */
  lemma GetEnvFailurePassesThrough<V>(http: HttpClient<V>, baseConfig: Doc<V>, e: HttpErrorResponse)
    requires http.get(ConfigBaseUrl) == Success(baseConfig)
    requires http.getEnv(EnvUrl) == Failure(e)
    ensures Get(http) == Outcome(Failure(Http(e)), [ConfigBaseUrl, EnvUrl])
  {
  }

  /** A failed override request is the result, unchanged: the base is not returned instead. */
  lemma GetOverrideFailurePassesThrough<V>(http: HttpClient<V>, baseConfig: Doc<V>, env: string, e: HttpErrorResponse)
    requires http.get(ConfigBaseUrl) == Success(baseConfig)
    requires http.getEnv(EnvUrl) == Success(EnvJson(Some(env)))
    requires env != ""
    requires http.get(ConfigRuntimeUrl(env)) == Failure(e)
    ensures Get(http) == Outcome(Failure(Http(e)), [ConfigBaseUrl, EnvUrl, ConfigRuntimeUrl(env)])
  {
  }

  // ---------------------------------------------------------------------------
  // Get, over all clients
  // ---------------------------------------------------------------------------

  /**
   * An override path is requested exactly when env.json names a non-empty environment,
   * and it is that environment's path.
   */
  lemma GetRequestsOverrideIff<V>(http: HttpClient<V>)
    ensures |Get(http).requested| == 3 <==>
              && http.get(ConfigBaseUrl).Success?
              && http.getEnv(EnvUrl).Success?
              && http.getEnv(EnvUrl).value.env.Some?
              && http.getEnv(EnvUrl).value.env.value != ""
    ensures |Get(http).requested| == 3 ==>
              Get(http).requested[2] == ConfigRuntimeUrl(http.getEnv(EnvUrl).value.env.value)
  {
  }

  /** `Get` succeeds exactly when every request it makes succeeds and env.json has an `env`. */
  lemma GetSucceedsIff<V>(http: HttpClient<V>)
    ensures Get(http).result.Success? <==>
              && http.get(ConfigBaseUrl).Success?
              && http.getEnv(EnvUrl).Success?
              && http.getEnv(EnvUrl).value.env.Some?
              && (var env := http.getEnv(EnvUrl).value.env.value;
                  env == "" || http.get(ConfigRuntimeUrl(env)).Success?)
  {
  }

  /**
   * Every failure of `Get` is either the error of the last path it requested, unchanged,
   * or the missing-env error.
   */
  lemma GetFailureIsLastRequest<V>(http: HttpClient<V>)
    requires Get(http).result.Failure?
    ensures var o := Get(http);
            || (o.result.error.Http? &&
                 (if |o.requested| == 2 then http.getEnv(EnvUrl) == Failure(o.result.error.response)
                  else http.get(o.requested[|o.requested| - 1]) == Failure(o.result.error.response)))
            || (o.result.error == MissingEnv(MissingEnvMessage) && o.requested == [ConfigBaseUrl, EnvUrl])
  {
  }

  /**
   * `Get` keeps no state between calls: two clients that serve the same base document,
   * the same env.json and the same override document for the env it names give the same
   * outcome, whatever they serve at other paths.
   */
  lemma GetDependsOnlyOnServedDocuments<V>(http1: HttpClient<V>, http2: HttpClient<V>)
    requires http1.get(ConfigBaseUrl) == http2.get(ConfigBaseUrl)
    requires http1.getEnv(EnvUrl) == http2.getEnv(EnvUrl)
    requires http1.getEnv(EnvUrl).Success? && http1.getEnv(EnvUrl).value.env.Some? ==>
               var url := ConfigRuntimeUrl(http1.getEnv(EnvUrl).value.env.value);
               http1.get(url) == http2.get(url)
    ensures Get(http1) == Get(http2)
  {
  }
}
