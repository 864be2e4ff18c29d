# odin-hel decision engine, modelled in Dafny

This project models the host-allowlist decision engine of odin-hel
(`src/odin_hel/engine.py`). The engine decides whether an outbound request may
go ahead. It works in two tiers:

- **Allowlist tier.** The engine takes a candidate host from the policy
  context: a non-empty `host` field, or else the hostname of `forward_url`.
  It then scans the effective allowlist in order. That list is the profile's
  canonical list (`open` gives `["*"]`, `medium` gives the curated defaults,
  `strict` and any unknown profile give nothing) followed by the tenant
  overrides. The first entry that is `"*"`, or that the host equals or is a
  dot-delimited subdomain of, decides.
- **Evaluator tier.** When an OPA executable and a policy document are
  available, the engine runs OPA and its verdict replaces the baseline
  entirely. The verdict is read fail-closed: only a result value that is
  exactly `true` allows.

Files:

- `wrappers.dfy`: `Option` and `Result`.
- `engine.dfy`: module `Engine`. It holds the data model (`Decision`, `Reason`,
  `Context`, `Json`, the evaluator outcome) and the engine's operations. The
  configuration is a `PolicyEngine` value because the source assigns its
  fields once in `__init__` and only reads them afterwards. The `for` loop of
  `_allowlist_decision` is the method `DecideAllowlist`. That method is proved
  equal to the specification function `AllowlistDecision`, and `Evaluate`
  calls it.
- `engine_properties.dfy`: module `EngineProperties`, lemmas relating calls:
  label-boundary matching, first match wins, overrides are additive, and the
  evaluator fails closed.
- `engine_scenarios.dfy`: module `EngineScenarios`, the repository's tests as
  client methods of `Evaluate`. Each one promises what its test asserts.

Everything the engine consults outside itself is an input, held in a `World`
value:

- the medium profile's default list (`mediumDefaults`);
- `shutil.which` (`onSearchPath`) and `os.path.exists` (`pathExists`);
- `urlparse(...).hostname` (`urlparse`, where `Malformed` stands for a parse
  that raised);
- the OPA subprocess (`runOpa`). It maps the executable, the policy path and
  the unmodified context to how the process ended: an exit code with decoded
  stderr and decoded stdout, or a raised exception.

The first admitting entry decides. A `"*"` entry gives `wildcard` only when
no earlier entry admits the host. An ordinary entry that matches first gives
`host_allowed`, so `WildcardAllowsEveryHost` promises `allow` with reason
`wildcard` or `host_allowed`.

## Model

| member | source | states |
|---|---|---|
| `Engine.NewPolicyEngine` | src/odin_hel/engine.py:57-62 | The engine keeps its profile, policy path and executable as given. A missing override list becomes an empty one, and a given list is kept entry for entry. |
| `Engine.ExtractHost` | src/odin_hel/engine.py:34-47 | Fails with `InvalidPolicyContext` exactly when the context is not a `dict`. A non-empty `host` field wins. Without one, a non-empty `forward_url` gives exactly the URL parser's hostname, and any host returned comes from one of these two. With neither field there is no host. A URL whose parse raises gives no host, not an error. |
| `Engine.Matches` | src/odin_hel/engine.py:49-54 | A match always ends with the entry, and unless the host is the entry itself, a dot stands right before the entry. |
| `EngineProperties.MatchesIsLabelBoundary` | src/odin_hel/engine.py:49-54 | A host matches an entry exactly when it equals the entry or is some name, then a dot, then the entry. |
| `EngineProperties.NoMatchWithoutDot` | src/odin_hel/engine.py:49-54 | A host that ends with the entry but has a character other than a dot just before it does not match. For example, `evilexample.com` does not match `example.com`. |
| `Engine.ProfileAllowlist` | src/odin_hel/engine.py:64-71 | `open` gives `["*"]` and `medium` gives the default list. Every other profile gives the empty list, so it fails closed. A wildcard can only come from `open` or from the defaults. |
| `EngineProperties.ClosedProfileDeniesWithoutOverrides` | src/odin_hel/engine.py:64-92 | Under `strict` or an unknown profile with no overrides, every present host is denied with `host_denied`, and the host is recorded. |
| `Engine.FirstAdmitting` | src/odin_hel/engine.py:79-89 | Gives no index exactly when no entry is `"*"` or matches the host. Otherwise it gives an index whose entry admits the host, and no earlier entry admits it. |
| `Engine.AllowlistDecision` | src/odin_hel/engine.py:73-92 | The decision comes from the allowlist engine. Under `open` it is `profile_open` for every host, including an absent one. Otherwise an absent or empty host gives `no_host`, and a present host is allowed exactly when some effective entry admits it. `allow` holds exactly for the reasons `profile_open`, `wildcard` and `host_allowed`. |
| `Engine.DecideAllowlist` | src/odin_hel/engine.py:73-92 | The in-order scan with early return yields exactly the decision `AllowlistDecision` specifies. |
| `EngineProperties.FirstAdmittingEntryDecides` | src/odin_hel/engine.py:79-92 | Under a non-open profile, the reason is `wildcard` exactly when the first admitting entry is `"*"`. It is `host_allowed` exactly when that entry is an ordinary match, and the recorded `match` is an entry that matches the host with no admitting entry before it. It is `host_denied` exactly when no entry admits the host, and then the host is recorded without a `match`. |
| `EngineProperties.WildcardAllowsEveryHost` | src/odin_hel/engine.py:80-82 | A `"*"` anywhere in the effective list allows every present host. |
| `EngineProperties.OverridesOnlyAdd` | src/odin_hel/engine.py:79 | Replacing the overrides with a list that keeps all their entries never turns an allowed host into a denied one. |
| `EngineProperties.AppendedOverridesKeepAllows` | src/odin_hel/engine.py:79 | Appending overrides never turns an allowed host into a denied one. |
| `EngineProperties.OverrideAllowsHost` | src/odin_hel/engine.py:79-89 | An override entry that admits a present host allows it, whatever the profile's list holds. |
| `Engine.ResultValue` | src/odin_hel/engine.py:126-130 | A value is found exactly when the answer holds one at `result[0].expressions[0].value`, through non-empty lists and objects, and the value found is that one. A value is never found unless `result` is a list. |
| `EngineProperties.AnswerValueIsRead` | src/odin_hel/engine.py:126-131 | For an answer shaped `{"result": [{"expressions": [{"value": v}, ...]}, ...]}`, the extracted value is `v`. |
| `EngineProperties.MalformedAnswerDenies` | src/odin_hel/engine.py:126-133 | A zero exit whose output does not hold `true` at the answer's value path gives `rego_deny`, whatever else the output holds. |
| `EngineProperties.NonListResultDenies` | src/odin_hel/engine.py:126-133 | When `result` is present but not a list (a string included), no value is extracted, and a zero exit gives `rego_deny` with value `None`. |
| `Engine.RegoDecision` | src/odin_hel/engine.py:118-135 | The decision comes from the rego engine. It allows exactly on a zero exit whose extracted value is `true`, and `allow` holds exactly for `rego_allow`. A non-zero exit is exactly `rego_error`. An exception, including undecodable output, is exactly `rego_exception`. |
| `EngineProperties.EvaluatorFailsClosed` | src/odin_hel/engine.py:118-135 | The evaluator allows only on an extracted `true`. It gives `rego_exception` with the error message, `rego_error` with stderr, and otherwise `rego_deny` with the extracted value, or `None` when none was found. |
| `Engine.RegoAvailable` | src/odin_hel/engine.py:94-97 | The evaluator is available only when its executable resolves and a non-empty policy path exists, and these two checks together suffice. |
| `EngineProperties.NoPolicyPathNoEvaluator` | src/odin_hel/engine.py:94-97 | Without a non-empty policy path the evaluator is never available. |
| `Engine.Evaluate` | src/odin_hel/engine.py:137-144 | Raises `InvalidPolicyContext` exactly when the context is not a `dict`. When the evaluator is unavailable it returns the allowlist decision for the extracted host. When it is available it returns the evaluator's decision for the unmodified context, whatever the baseline was. `engine` is `rego` exactly when the evaluator was available, and every allow carries an allowing reason. |
| `EngineScenarios.OpenProfileAllowsAll` | tests/test_hel_basic.py:4-7 | Open profile: allowed by the allowlist engine with `profile_open`. |
| `EngineScenarios.StrictProfileBlocksUnknown` | tests/test_hel_basic.py:10-13 | Strict profile, unknown host: `host_denied`. |
| `EngineScenarios.MediumProfileHasDefaults` | tests/test_hel_basic.py:16-19 | Medium profile: a host in the default list is allowed. |
| `EngineScenarios.TenantAllowlistOverride` | tests/test_hel_basic.py:22-26 | An override allows its host, and another host stays denied. |
| `EngineScenarios.EmptyContextBlocks` | tests/test_hel_edge_cases.py:5-8 | Empty context: `no_host`. |
| `EngineScenarios.HostNotInAllowlist` | tests/test_hel_edge_cases.py:11-14 | A host not in the overrides: `host_denied`. |
| `EngineScenarios.WildcardAllowsAny` | tests/test_hel_edge_cases.py:17-20 | A `"*"` override allows any host with `wildcard`. |
| `EngineScenarios.SuffixMatch` | tests/test_hel_edge_cases.py:23-26 | A subdomain of an override is allowed with `host_allowed`. |
| `EngineScenarios.ExactMatch` | tests/test_hel_edge_cases.py:29-32 | A host equal to an override is allowed with `host_allowed`. |
| `EngineScenarios.ForwardUrlNoHost` | tests/test_hel_edge_cases.py:35-38 | A forward URL without a hostname: `no_host`. |
| `EngineScenarios.EmptyAllowlistBlocks` | tests/test_hel_edge_cases.py:41-44 | Strict profile with an empty override list: `host_denied`. |
| `EngineScenarios.InvalidContextType` | tests/test_input_validation.py:5-12 | A context that is not a `dict` raises `InvalidPolicyContext`. |
| `EngineScenarios.ExtractHostInvalidUrl` | tests/test_input_validation.py:15-19 | An unparseable forward URL under the default profile: `no_host`, with no exception. |
| `EngineScenarios.EvaluatorAllowSupersedesBaseline` | src/odin_hel/engine.py:137-144 | With the evaluator available and answering `true`, the result is the rego engine's `rego_allow`, even under `strict` with no overrides. |

## Left out

- The OPA subprocess itself is not modelled: its arguments, the stdin/stdout piping, the JSON serialisation of the context, and the UTF-8 decoding of stdout and stderr. `World.runOpa` gives the outcome of the run, with the output already decoded.
- `shutil.which` and `os.path.exists` are inputs (`World.onSearchPath`, `World.pathExists`) because they are lookups in the process environment and the file system.
- `urlparse` is an input (`World.urlparse`) because it is library code. The tests that go through it state the hostname they rely on as a precondition.
- The contents of `DEFAULT_MEDIUM_ALLOWLIST` are an input (`World.mediumDefaults`). `src/odin_hel/profiles.py` is not part of this model. The medium-profile test assumes `api.openai.com` is in that list.
- Exception message texts are inputs (`Raised(error)`, `Undecodable(error)`), not the library's wording.
- JSON numbers are kept as their literal text, and floating point is not modelled. Only the fact that they are not `true` matters to the engine.
- Context fields are typed as the `PolicyContext` declaration types them. A truthy `host` that is not a string is not modelled. The source would raise on it when matching.
- The extra keys a context `dict` may carry beyond the declared fields are not modelled.
- A mapping that is not a `dict` (such as a mapping proxy) is one of the `NotDict` values, because the source checks `isinstance(ctx, dict)`. Its fields are not modelled.
- The override list is shared, not copied. `__init__` stores the caller's own list object (`allowlist or []`), so a caller who mutates that list after construction changes later decisions. The model holds the overrides as an immutable sequence, so this aliasing is not captured. Each decision is modelled against the list as it stands when `evaluate` runs.
- `tests/test_json_stability.py` is not modelled because it tests the JSON library, not the engine.
- Concurrency is not modelled, and there is none in the engine. The blocking, untimed wait on the evaluator is not modelled either.
