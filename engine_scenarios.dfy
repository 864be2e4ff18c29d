/**
 * The repository's test cases as client methods of `Evaluate`: each builds
 * the engine and the context of one test and promises the outcome the test
 * asserts. URL parsing is an input of the model, so each test states the
 * hostname it relies on the parser to return.
 */
module EngineScenarios {
  import opened Wrappers
  import opened Engine

  /** A policy context carrying only a `host` and/or a `forward_url`. */
  function Ctx(host: Option<string>, forwardUrl: Option<string>): Context {
    Dict(None, forwardUrl, host, None, None, None, None)
  }

  /** An engine without a policy document, so only the allowlist tier runs. */
  function LocalEngine(profile: string, allowlist: Option<seq<string>>): PolicyEngine {
    NewPolicyEngine(profile, allowlist, None, DefaultOpaBin)
  }

  method OpenProfileAllowsAll(world: World) returns (d: Result<Decision, EngineError>)
    ensures d.Success? && d.value.allow && d.value.engine == Allowlist && d.value.reason == ProfileOpen
  {
    d := Evaluate(LocalEngine("open", None), world, Ctx(None, Some("https://example.com/path")));
  }

  method StrictProfileBlocksUnknown(world: World) returns (d: Result<Decision, EngineError>)
    requires world.urlparse("https://unknown.example/path") == Parsed(Some("unknown.example"))
    ensures d.Success? && !d.value.allow && d.value.reason == HostDenied
  {
    d := Evaluate(LocalEngine("strict", None), world, Ctx(None, Some("https://unknown.example/path")));
  }

  method MediumProfileHasDefaults(world: World) returns (d: Result<Decision, EngineError>)
    requires world.urlparse("https://api.openai.com/v1/chat/completions") == Parsed(Some("api.openai.com"))
    requires "api.openai.com" in world.mediumDefaults
    ensures d.Success? && d.value.allow
  {
    var eng := LocalEngine("medium", None);
    d := Evaluate(eng, world, Ctx(None, Some("https://api.openai.com/v1/chat/completions")));
    var e := EffectiveAllowlist(eng, world.mediumDefaults);
    var k :| 0 <= k < |world.mediumDefaults| && world.mediumDefaults[k] == "api.openai.com";
    assert Admits(e[k], "api.openai.com");
  }

  method TenantAllowlistOverride(world: World) returns (d1: Result<Decision, EngineError>, d2: Result<Decision, EngineError>)
    requires world.urlparse("https://internal.example.com/foo") == Parsed(Some("internal.example.com"))
    requires world.urlparse("https://api.openai.com/foo") == Parsed(Some("api.openai.com"))
    ensures d1.Success? && d1.value.allow
    ensures d2.Success? && !d2.value.allow
  {
    var eng := LocalEngine("strict", Some(["internal.example.com"]));
    d1 := Evaluate(eng, world, Ctx(None, Some("https://internal.example.com/foo")));
    d2 := Evaluate(eng, world, Ctx(None, Some("https://api.openai.com/foo")));
    assert EffectiveAllowlist(eng, world.mediumDefaults) == ["internal.example.com"];
    assert Admits(EffectiveAllowlist(eng, world.mediumDefaults)[0], "internal.example.com");
    assert !EndsWith("api.openai.com", ".internal.example.com");
  }

  method EmptyContextBlocks(world: World) returns (d: Result<Decision, EngineError>)
    ensures d.Success? && !d.value.allow && d.value.reason == NoHost
  {
    d := Evaluate(LocalEngine("strict", None), world, Ctx(None, None));
  }

  method HostNotInAllowlist(world: World) returns (d: Result<Decision, EngineError>)
    ensures d.Success? && !d.value.allow && d.value.reason == HostDenied
  {
    var eng := LocalEngine("strict", Some(["foo.com"]));
    d := Evaluate(eng, world, Ctx(Some("bar.com"), None));
    assert EffectiveAllowlist(eng, world.mediumDefaults) == ["foo.com"];
    assert !EndsWith("bar.com", ".foo.com");
  }

  method WildcardAllowsAny(world: World) returns (d: Result<Decision, EngineError>)
    ensures d.Success? && d.value.allow && d.value.reason == Wildcard
  {
    var eng := LocalEngine("strict", Some(["*"]));
    d := Evaluate(eng, world, Ctx(Some("anything.com"), None));
    assert EffectiveAllowlist(eng, world.mediumDefaults) == ["*"];
  }

  method SuffixMatch(world: World) returns (d: Result<Decision, EngineError>)
    ensures d.Success? && d.value.allow && d.value.reason == HostAllowed
  {
    var eng := LocalEngine("strict", Some(["example.com"]));
    d := Evaluate(eng, world, Ctx(Some("api.example.com"), None));
    assert EffectiveAllowlist(eng, world.mediumDefaults) == ["example.com"];
    assert "api.example.com"[3..] == ".example.com";
  }

  method ExactMatch(world: World) returns (d: Result<Decision, EngineError>)
    ensures d.Success? && d.value.allow && d.value.reason == HostAllowed
  {
    var eng := LocalEngine("strict", Some(["foo.com"]));
    d := Evaluate(eng, world, Ctx(Some("foo.com"), None));
    assert EffectiveAllowlist(eng, world.mediumDefaults) == ["foo.com"];
  }

  method ForwardUrlNoHost(world: World) returns (d: Result<Decision, EngineError>)
    requires HostnameOf(world.urlparse("not-a-url")) == None
    ensures d.Success? && !d.value.allow && d.value.reason == NoHost
  {
    d := Evaluate(LocalEngine("strict", None), world, Ctx(None, Some("not-a-url")));
  }

  method EmptyAllowlistBlocks(world: World) returns (d: Result<Decision, EngineError>)
    ensures d.Success? && !d.value.allow && d.value.reason == HostDenied
  {
    var eng := LocalEngine("strict", Some([]));
    d := Evaluate(eng, world, Ctx(Some("foo.com"), None));
    assert EffectiveAllowlist(eng, world.mediumDefaults) == [];
  }

  /** `None`, `123` and `[]` are all values that are not a `dict`. */
  method InvalidContextType(world: World) returns (d: Result<Decision, EngineError>)
    ensures d == Failure(InvalidPolicyContext)
  {
    d := Evaluate(LocalEngine(DefaultProfile, None), world, NotDict);
  }

  method ExtractHostInvalidUrl(world: World) returns (d: Result<Decision, EngineError>)
    requires HostnameOf(world.urlparse(":not-a-url")) == None
    ensures d.Success? && !d.value.allow && d.value.reason == NoHost
  {
    d := Evaluate(LocalEngine(DefaultProfile, None), world, Ctx(None, Some(":not-a-url")));
  }

  /** An available evaluator answering `true` allows, whatever the allowlist would have said. */
  method EvaluatorAllowSupersedesBaseline(world: World, path: string, ctx: Context, answer: map<string, Json>)
    returns (d: Result<Decision, EngineError>)
    requires ctx.Dict? && path != ""
    requires world.onSearchPath(DefaultOpaBin) && world.pathExists(path)
    requires "result" in answer && answer["result"] == JArray([JObject(map["expressions" := JArray([JObject(map["value" := JBool(true)])])])])
    requires world.runOpa(DefaultOpaBin, path, ctx) == Exited(0, "", JsonOutput(JObject(answer)))
    ensures d == Success(Decision(true, Rego, RegoAllow, NoInfo))
  {
    d := Evaluate(NewPolicyEngine("strict", None, Some(path), DefaultOpaBin), world, ctx);
    assert Head(answer["result"]) == Some(JObject(map["expressions" := JArray([JObject(map["value" := JBool(true)])])]));
  }
}
