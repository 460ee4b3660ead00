# ng-config: configuration resolution, modelled in Dafny

ng-config's `ConfigService.get` loads the effective configuration of an Angular
application. It first requests `assets/configs/config.json`, the base configuration.
Then it requests `assets/configs/env.json` and reads its `env` field. A missing `env` is
an error. An empty `env` returns the base unchanged. Any other `env` makes it request
`assets/configs/config.<env>.json` and return `Object.assign({}, base, override)`: the
override's top-level keys replace or extend the base's. A failed request ends the chain
and its error reaches the caller unchanged. Nothing is cached: every call re-reads the
documents it needs.

The model is pure, as the source is:

- `wrappers.dfy` (module `Wrappers`): `Option` and `Result`.
- `config_service.dfy` (module `ConfigService`): the data model and the operations.
  - Documents are `map<string, V>`.
  - The HTTP client is a parameter, `HttpClient<V>`.
  - The three paths are built from the same constants as in the source.
  - `HandleEnv` is the check for an absent `env`.
  - `Assign` is JavaScript's `Object.assign`, except for the `__proto__` key (see
    "Left out").
  - `ShallowMerge` is the call `Object.assign({}, base, override)`; it equals Dafny's
    right-biased map union `base + override`.
  - `Get` is the request chain. It returns an `Outcome`: the result, and the paths
    requested, in order.
- `config_service_lemmas.dfy` (module `ConfigServiceProperties`): the properties.
  - There is one lemma per case the service's tests exercise.
  - Other lemmas cover every client: the request order, when `Get` succeeds, which
    error it reports, and that it keeps no state between calls.

Config values are a type parameter `V` that the merge never inspects. So a nested
object in the override replaces the base's value for that key as a whole: the merge is
shallow by construction. `Object.assign` writes into a fresh `{}`, so the base document
is never changed. Dafny's maps are immutable values, so this holds in the model by
construction too.

## Model

| member | source | states |
|---|---|---|
| `ConfigService.ConfigRuntimeUrl` | projects/ng-config/src/lib/config.service.ts:39 | the override path starts with `assets/configs/config.`, ends with `.json`, and what lies between is exactly the env name |
| `ConfigService.EnvOfRuntimeUrl` | projects/ng-config/src/lib/config.service.ts:39 | whenever it reads an env name out of a path, that name's override path is exactly that path |
| `ConfigService.HandleEnv` | projects/ng-config/src/lib/config.service.ts:60-66 | succeeds exactly when `env` is present, with its value (`""` included); otherwise fails with the local missing-env error |
| `ConfigService.Assign` | projects/ng-config/src/lib/config.service.ts:54 | `Object.assign(target, ...sources)`: the result's keys are the target's plus every source's; a key takes its value from the last source that has it, else from the target |
| `ConfigService.AssignOverEmptyIsUnion` | projects/ng-config/src/lib/config.service.ts:54 | `Object.assign({}, base, override)` equals the right-biased union `base + override`: override keys win, other base keys stay, no other key appears |
| `ConfigService.ShallowMerge` | projects/ng-config/src/lib/config.service.ts:54 | the merged configuration is exactly `base + override` |
| `ConfigService.Get` | projects/ng-config/src/lib/config.service.ts:48-58 | one to three requests: the base path first, `env.json` second, an override path third; no path is requested twice |
| `ConfigServiceProperties.RuntimeUrlRoundTrip` | projects/ng-config/src/lib/config.service.ts:39 | the env name is recovered from the override path built from it |
| `ConfigServiceProperties.RuntimeUrlInjective` | projects/ng-config/src/lib/config.service.ts:39 | two env names give the same override path if and only if they are equal |
| `ConfigServiceProperties.RuntimeUrlIsNotFixedUrl` | projects/ng-config/src/lib/config.service.ts:33-39 | no override path equals the base path or the `env.json` path |
| `ConfigServiceProperties.GetMergesOverride` | projects/ng-config/src/lib/config.service.ts:51-54 | with a non-empty env, every override key has the override's value, every other base key keeps the base's value, the key set is the union, and the three paths were requested in order |
| `ConfigServiceProperties.GetEmptyEnvReturnsBase` | projects/ng-config/src/lib/config.service.ts:53-55 | with `env` equal to `""`, the result is exactly the base and only the base and `env.json` paths are requested |
| `ConfigServiceProperties.GetMissingEnvFails` | projects/ng-config/src/lib/config.service.ts:60-62 | with no `env` field, the result is the missing-env error and no override path is requested |
| `ConfigServiceProperties.GetBaseFailurePassesThrough` | projects/ng-config/src/lib/config.service.ts:51 | a failed base request is the result with its status and payload unchanged, and only the base path is requested |
| `ConfigServiceProperties.GetEnvFailurePassesThrough` | projects/ng-config/src/lib/config.service.ts:52 | a failed `env.json` request is the result unchanged, and no override path is requested |
| `ConfigServiceProperties.GetOverrideFailurePassesThrough` | projects/ng-config/src/lib/config.service.ts:53-54 | a failed override request is the result unchanged; the base is not returned as a fallback |
| `ConfigServiceProperties.GetRequestsOverrideIff` | projects/ng-config/src/lib/config.service.ts:51-55 | an override path is requested if and only if both earlier requests succeed and `env` is present and non-empty, and it is that env's path |
| `ConfigServiceProperties.GetSucceedsIff` | projects/ng-config/src/lib/config.service.ts:51-57 | `Get` succeeds if and only if every request it makes succeeds and `env` is present |
| `ConfigServiceProperties.GetFailureIsLastRequest` | projects/ng-config/src/lib/config.service.ts:51-62 | every failure is either the unchanged error of the last path requested or the missing-env error after exactly two requests |
| `ConfigServiceProperties.GetDependsOnlyOnServedDocuments` | projects/ng-config/src/lib/config.service.ts:23 | two clients that serve the same base, the same env.json and the same override for the env named there give the same outcome, whatever else they serve; so two calls over unchanged files agree |

## Left out

- Angular dependency injection (`@Injectable`, `forwardRef`, `resolveForwardRef`): this is framework wiring. The HTTP client is a parameter instead.
- ConfigService.Assign: a `__proto__` key is treated as an ordinary key. In JavaScript, `Object.assign` copies with assignment, so a `"__proto__"` key in a source runs the prototype setter on the fresh `{}`. The real result then has a new prototype and no own `__proto__` key, while the model's result keeps that key with the source's value. Documents with a `__proto__` key are therefore not modelled faithfully.
- rxjs `Observable`, `switchMap` and `of`: asynchrony, subscription and cancellation of in-flight requests are not modelled. The chain is a sequential function.
- JSON parsing and the type parameter `T`: the source does not check the result against `T` at run time. Documents are untyped maps whose values are an opaque `V`.
- The selector `env.json` is read only through its `env` field, as `Option<string>`. A JSON `null`, `false` or `0` there would pass the undefined check and select the base, like `""`. A truthy non-string value would be turned into text in the path. A `null` body would throw a TypeError. These JavaScript coercions are not modelled.
- An HTTP error payload is modelled as text, as in the tests. Other payload shapes are passed through the same way and are not modelled.
- Which paths the HTTP client serves, and what it answers, belong to the client. `HttpClient.get` and `HttpClient.getEnv` stand for the answers the server gives to `http.get<T>` and to `http.get<{ env: string }>`.
