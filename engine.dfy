/**
 * The host-allowlist decision engine of odin-hel: a local allowlist check,
 * optionally superseded by the verdict of an external policy evaluator (OPA
 * running a Rego document).
 *
 * Everything the engine consults outside itself -- the medium profile's
 * default host list, the executable search path, the file system, the URL
 * parser and the evaluator process -- is supplied through a `World` value.
 */
module Engine {
  import opened Wrappers

  // ---------------------------------------------------------------------
  // Data model
  // ---------------------------------------------------------------------

  /** A JSON value, as the JSON decoder hands it over. */
  datatype Json =
    | JNull
    | JBool(b: bool)
    | JNumber(literal: string)
    | JString(s: string)
    | JArray(items: seq<Json>)
    | JObject(members: map<string, Json>)

  /** Which tier produced a decision. */
  datatype EngineKind = Allowlist | Rego

  /** The fixed vocabulary of decision reasons. */
  datatype Reason =
    | ProfileOpen
    | NoHost
    | Wildcard
    | HostAllowed
    | HostDenied
    | RegoError
    | RegoAllow
    | RegoDeny
    | RegoException

  /** The diagnostic `details` mapping of a decision, one shape per reason. */
  datatype Details =
    | ProfileInfo(profile: string)                                    // {"profile": p}
    | HostInfo(host: string, matched: Option<string>, profile: string) // {"host": h, ["match": e,] "profile": p}
    | StderrInfo(stderr: string)                                      // {"stderr": text}
    | ValueInfo(value: Json)                                          // {"value": v}, JNull for Python's None
    | ErrorInfo(error: string)                                        // {"error": message}
    | NoInfo                                                          // {}

  datatype Decision = Decision(allow: bool, engine: EngineKind, reason: Reason, details: Details)

  /** The one error `evaluate` raises to its caller. */
  datatype EngineError = InvalidPolicyContext

  /**
   * The argument of `evaluate`: either a `dict` with the optional fields of
   * a policy context, or any value that is not a `dict` (None, a number, a
   * list, another kind of mapping, ...).
   */
  datatype Context =
    | Dict(
        tenantId: Option<string>,
        forwardUrl: Option<string>,
        host: Option<string>,
        httpMethod: Option<string>,
        headers: Option<map<string, string>>,
        payloadCid: Option<string>,
        attrs: Option<Json>)
    | NotDict

  /** What the URL parser yields for a forward URL: its hostname, or an exception. */
  datatype UrlParse = Parsed(hostname: Option<string>) | Malformed

  /** What the evaluator process printed on standard output, once decoded. */
  datatype Stdout = JsonOutput(out: Json) | Undecodable(error: string)

  /** How one run of the evaluator process ended. */
  datatype EvalOutcome =
    | Exited(code: int, stderr: string, stdout: Stdout)
    | Raised(error: string)

  /** The parts of the environment the engine reads but does not own. */
  datatype World = World(
    mediumDefaults: seq<string>,                         // the medium profile's default hosts
    onSearchPath: string -> bool,                        // the executable is resolvable
    pathExists: string -> bool,                          // the file exists
    urlparse: string -> UrlParse,                        // hostname of a URL
    runOpa: (string, string, Context) -> EvalOutcome)    // (executable, policy path, input) to outcome

  /** The engine's configuration, as stored at construction and only read afterwards. */
  datatype PolicyEngine = PolicyEngine(
    profile: string,
    allowlist: seq<string>,
    regoPath: Option<string>,
    opaBin: string)

  const DefaultProfile := "medium"
  const DefaultOpaBin := "opa"

  // ---------------------------------------------------------------------
  // Construction
  // ---------------------------------------------------------------------

  /** Builds an engine; a missing override list is an empty one. */
  function NewPolicyEngine(profile: string, allowlist: Option<seq<string>>, regoPath: Option<string>, opaBin: string): (eng: PolicyEngine)
    ensures eng.profile == profile && eng.regoPath == regoPath && eng.opaBin == opaBin
    ensures forall e :: e in eng.allowlist <==> allowlist.Some? && e in allowlist.value
    ensures allowlist.Some? ==> eng.allowlist == allowlist.value
  {
    PolicyEngine(profile, allowlist.GetOr([]), regoPath, opaBin)
  }

  // ---------------------------------------------------------------------
  // Host extraction
  // ---------------------------------------------------------------------

  /** Python's `str.endswith`. */
  predicate EndsWith(s: string, suffix: string) {
    |suffix| <= |s| && s[|s| - |suffix|..] == suffix
  }

  /** The hostname a URL parse yields; a parse that raised yields none. */
  function HostnameOf(p: UrlParse): Option<string> {
    match p
    case Parsed(h) => h
    case Malformed => None
  }

  /**
   * The candidate host of a context: a non-empty `host` field wins, otherwise
   * the hostname of a non-empty `forward_url`; a URL that cannot be parsed
   * gives no host rather than an error.
   */
  function ExtractHost(ctx: Context, urlparse: string -> UrlParse): (r: Result<Option<string>, EngineError>)
    ensures r.Failure? <==> ctx.NotDict?
    ensures r.Failure? ==> r.error == InvalidPolicyContext
    ensures ctx.Dict? && ctx.host.Some? && ctx.host.value != "" ==> r == Success(ctx.host)
    ensures ctx.Dict? && (ctx.host.None? || ctx.host.value == "") && ctx.forwardUrl.Some? && ctx.forwardUrl.value != "" ==>
      r == Success(HostnameOf(urlparse(ctx.forwardUrl.value)))
    ensures r.Success? && r.value.Some? ==>
      (ctx.host.Some? && ctx.host.value != "" && r.value == ctx.host) ||
      (ctx.forwardUrl.Some? && ctx.forwardUrl.value != "" && urlparse(ctx.forwardUrl.value) == Parsed(r.value))
    ensures ctx.Dict? && (ctx.host.None? || ctx.host.value == "") && (ctx.forwardUrl.None? || ctx.forwardUrl.value == "") ==>
      r == Success(None)
  {
    match ctx
    case NotDict => Failure(InvalidPolicyContext)
    case Dict(_, forwardUrl, host, _, _, _, _) =>
      if host.Some? && host.value != "" then Success(host)
      else if forwardUrl.Some? && forwardUrl.value != "" then Success(HostnameOf(urlparse(forwardUrl.value)))
      else Success(None)
  }

  // ---------------------------------------------------------------------
  // Allowlist matching
  // ---------------------------------------------------------------------

  /**
   * A host matches an entry when it is the entry or ends with "." followed by
   * the entry: a match always ends with the entry, and unless it is the entry
   * itself, a dot stands right before it.
   */
  predicate Matches(host: string, allowed: string): (m: bool)
    ensures m ==> EndsWith(host, allowed)
    ensures m && host != allowed ==> |allowed| < |host| && host[|host| - |allowed| - 1] == '.'
  {
    var dotted := "." + allowed;
    assert EndsWith(host, dotted) ==> host[|host| - |dotted|..][1..] == host[|host| - |allowed|..];
    host == allowed || EndsWith(host, dotted)
  }

  /** An entry lets a host through when it is the wildcard or the host matches it. */
  predicate Admits(entry: string, host: string) {
    entry == "*" || Matches(host, entry)
  }

  /** The canonical list of a profile; `strict` and unknown profiles fail closed. */
  function ProfileAllowlist(profile: string, mediumDefaults: seq<string>): (r: seq<string>)
    ensures profile == "open" ==> r == ["*"]
    ensures profile == "medium" ==> r == mediumDefaults
    ensures profile != "open" && profile != "medium" ==> r == []
    ensures "*" in r ==> profile == "open" || "*" in mediumDefaults
  {
    if profile == "open" then ["*"]
    else if profile == "medium" then mediumDefaults
    else if profile == "strict" then []
    else []
  }

  /** The list scanned for a host: the profile's list, then the tenant overrides. */
  function EffectiveAllowlist(eng: PolicyEngine, mediumDefaults: seq<string>): seq<string> {
    ProfileAllowlist(eng.profile, mediumDefaults) + eng.allowlist
  }

  /** The index of the first entry that admits the host, if any. */
  function FirstAdmitting(host: string, entries: seq<string>): (r: Option<nat>)
    ensures r.None? <==> forall i :: 0 <= i < |entries| ==> !Admits(entries[i], host)
    ensures r.Some? ==> r.value < |entries| && Admits(entries[r.value], host)
    ensures r.Some? ==> forall j :: 0 <= j < r.value ==> !Admits(entries[j], host)
  {
    if entries == [] then None
    else if Admits(entries[0], host) then Some(0)
    else
      match FirstAdmitting(host, entries[1..])
      case None => None
      case Some(k) => Some(k + 1)
  }

  /** The decision for a present, non-empty host under a non-open profile. */
  function ScanDecision(host: string, effective: seq<string>, profile: string): Decision {
    match FirstAdmitting(host, effective)
    case None => Decision(false, Allowlist, HostDenied, HostInfo(host, None, profile))
    case Some(i) =>
      if effective[i] == "*" then Decision(true, Allowlist, Wildcard, ProfileInfo(profile))
      else Decision(true, Allowlist, HostAllowed, HostInfo(host, Some(effective[i]), profile))
  }

  /** The host has no usable value: absent or empty. */
  predicate NoUsableHost(host: Option<string>) {
    host.None? || host.value == ""
  }

  /**
   * The baseline allowlist decision. The open profile allows everything;
   * otherwise a missing host is denied, and a present one is allowed exactly
   * when some entry of the effective list admits it, the first such entry
   * giving the reason.
   */
  function AllowlistDecision(eng: PolicyEngine, mediumDefaults: seq<string>, host: Option<string>): (d: Decision)
    ensures d.engine == Allowlist
    ensures eng.profile == "open" ==> d == Decision(true, Allowlist, ProfileOpen, ProfileInfo("open"))
    ensures eng.profile != "open" && NoUsableHost(host) ==>
      d == Decision(false, Allowlist, NoHost, ProfileInfo(eng.profile))
    ensures eng.profile != "open" && !NoUsableHost(host) ==>
      (d.allow <==> exists i :: 0 <= i < |EffectiveAllowlist(eng, mediumDefaults)| &&
                                Admits(EffectiveAllowlist(eng, mediumDefaults)[i], host.value))
    ensures d.allow <==> d.reason in {ProfileOpen, Wildcard, HostAllowed}
  {
    if eng.profile == "open" then Decision(true, Allowlist, ProfileOpen, ProfileInfo("open"))
    else if NoUsableHost(host) then Decision(false, Allowlist, NoHost, ProfileInfo(eng.profile))
    else ScanDecision(host.value, EffectiveAllowlist(eng, mediumDefaults), eng.profile)
  }

  /**
   * `_allowlist_decision` as written: scan the effective list in order and
   * return at the first entry that is the wildcard or matches the host.
   */
  method DecideAllowlist(eng: PolicyEngine, mediumDefaults: seq<string>, host: Option<string>) returns (d: Decision)
    ensures d == AllowlistDecision(eng, mediumDefaults, host)
  {
    if eng.profile == "open" {
      return Decision(true, Allowlist, ProfileOpen, ProfileInfo("open"));
    }
    if host.None? || host.value == "" {
      return Decision(false, Allowlist, NoHost, ProfileInfo(eng.profile));
    }
    var h := host.value;
    var effective := ProfileAllowlist(eng.profile, mediumDefaults) + eng.allowlist;
    for i := 0 to |effective|
      invariant forall j :: 0 <= j < i ==> !Admits(effective[j], h)
    {
      var entry := effective[i];
      if entry == "*" {
        return Decision(true, Allowlist, Wildcard, ProfileInfo(eng.profile));
      }
      if Matches(h, entry) {
        return Decision(true, Allowlist, HostAllowed, HostInfo(h, Some(entry), eng.profile));
      }
    }
    return Decision(false, Allowlist, HostDenied, HostInfo(h, None, eng.profile));
  }

  // ---------------------------------------------------------------------
  // External evaluator
  // ---------------------------------------------------------------------

  /** The evaluator can run: its executable resolves and a non-empty policy path exists. */
  predicate RegoAvailable(eng: PolicyEngine, world: World): (ok: bool)
    ensures ok ==> world.onSearchPath(eng.opaBin)
    ensures ok ==> eng.regoPath.Some? && eng.regoPath.value != "" && world.pathExists(eng.regoPath.value)
    ensures (world.onSearchPath(eng.opaBin) && eng.regoPath.Some? && eng.regoPath.value != ""
             && world.pathExists(eng.regoPath.value)) ==> ok
  {
    world.onSearchPath(eng.opaBin) && eng.regoPath.Some? && eng.regoPath.value != ""
    && world.pathExists(eng.regoPath.value)
  }

  /** Python's `v[k]` for a string key: only an object with that key has a value. */
  function Member(v: Json, k: string): Option<Json> {
    if v.JObject? && k in v.members then Some(v.members[k]) else None
  }

  /** Python's `v[0]`: the first item of a list, or the first character of a string. */
  function Head(v: Json): Option<Json> {
    match v
    case JArray(items) => if |items| > 0 then Some(items[0]) else None
    case JString(s) => if |s| > 0 then Some(JString(s[..1])) else None
    case _ => None
  }

  /**
   * The evaluator's answer holds `v` at `result[0].expressions[0].value`:
   * both indexed steps are non-empty lists and the keyed steps objects.
   */
  predicate AnswerHolds(out: Json, v: Json) {
    && out.JObject? && "result" in out.members
    && var results := out.members["result"];
       && results.JArray? && |results.items| > 0
       && var first := results.items[0];
          && first.JObject? && "expressions" in first.members
          && var expressions := first.members["expressions"];
             && expressions.JArray? && |expressions.items| > 0
             && var expression := expressions.items[0];
                && expression.JObject? && "value" in expression.members
                && expression.members["value"] == v
  }

  /**
   * `out["result"][0]["expressions"][0]["value"]`, with any failing step
   * giving no value.
   */
  function ResultValue(out: Json): (r: Option<Json>)
    ensures r.Some? ==> out.JObject? && "result" in out.members && out.members["result"].JArray?
    ensures r.Some? ==> AnswerHolds(out, r.value)
    ensures forall v :: AnswerHolds(out, v) ==> r == Some(v)
  {
    var results :- Member(out, "result");
    var first :- Head(results);
    var expressions :- Member(first, "expressions");
    var expression :- Head(expressions);
    Member(expression, "value")
  }

  /**
   * The evaluator's decision, read fail-closed: a non-zero exit is an error,
   * only a value that is exactly `true` allows, any other value or a missing
   * one denies, and an exception denies.
   */
  function RegoDecision(outcome: EvalOutcome): (d: Decision)
    ensures d.engine == Rego
    ensures d.allow <==> d.reason == RegoAllow
    ensures d.allow <==> outcome.Exited? && outcome.code == 0 && outcome.stdout.JsonOutput?
                         && ResultValue(outcome.stdout.out) == Some(JBool(true))
    ensures d.reason == RegoError <==> outcome.Exited? && outcome.code != 0
    ensures d.reason == RegoException <==> outcome.Raised? || (outcome.code == 0 && outcome.stdout.Undecodable?)
  {
    match outcome
    case Raised(error) => Decision(false, Rego, RegoException, ErrorInfo(error))
    case Exited(code, stderr, stdout) =>
      if code != 0 then Decision(false, Rego, RegoError, StderrInfo(stderr))
      else
        match stdout
        case Undecodable(error) => Decision(false, Rego, RegoException, ErrorInfo(error))
        case JsonOutput(out) =>
          var value := ResultValue(out);
          if value == Some(JBool(true)) then Decision(true, Rego, RegoAllow, NoInfo)
          else Decision(false, Rego, RegoDeny, ValueInfo(value.GetOr(JNull)))
  }

  // ---------------------------------------------------------------------
  // The entry point
  // ---------------------------------------------------------------------

  /**
   * One evaluation: reject a context that is not a `dict`, compute the
   * baseline allowlist decision, and return the evaluator's decision instead
   * whenever the evaluator is available.
   */
  method Evaluate(eng: PolicyEngine, world: World, ctx: Context) returns (r: Result<Decision, EngineError>)
    ensures r.Failure? <==> ctx.NotDict?
    ensures r.Failure? ==> r.error == InvalidPolicyContext
    ensures r.Success? && !RegoAvailable(eng, world) ==>
      r.value == AllowlistDecision(eng, world.mediumDefaults, ExtractHost(ctx, world.urlparse).value)
    ensures r.Success? && RegoAvailable(eng, world) ==>
      r.value == RegoDecision(world.runOpa(eng.opaBin, eng.regoPath.value, ctx))
    ensures r.Success? ==> (r.value.engine == Rego <==> RegoAvailable(eng, world))
    ensures r.Success? && r.value.allow ==> r.value.reason in {ProfileOpen, Wildcard, HostAllowed, RegoAllow}
  {
    if ctx.NotDict? {
      return Failure(InvalidPolicyContext);
    }
    // The `dict` check above means host extraction cannot raise here.
    var host := ExtractHost(ctx, world.urlparse).value;
    var base := DecideAllowlist(eng, world.mediumDefaults, host);
    if RegoAvailable(eng, world) {
      return Success(RegoDecision(world.runOpa(eng.opaBin, eng.regoPath.value, ctx)));
    }
    return Success(base);
  }
}
