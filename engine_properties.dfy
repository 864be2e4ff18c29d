/**
 * Properties of the allowlist tier and of the evaluator tier that relate
 * several calls or hold for all inputs.
 */
module EngineProperties {
  import opened Wrappers
  import opened Engine

  // ---------------------------------------------------------------------
  // Host matching is on a label boundary
  // ---------------------------------------------------------------------

  /** A host matches an entry exactly when it is the entry or some name followed by "." and the entry. */
  lemma MatchesIsLabelBoundary(host: string, entry: string)
    ensures Matches(host, entry) <==> host == entry || exists p :: host == p + "." + entry
  {
    var suffix := "." + entry;
    if EndsWith(host, suffix) {
      var p := host[..|host| - |suffix|];
      assert host == p + suffix;
      assert host == p + "." + entry;
    }
    if p :| host == p + "." + entry {
      assert host == p + suffix;
      assert host[|host| - |suffix|..] == suffix;
    }
  }

  /** A name that ends with the entry but has no dot right before it does not match. */
  lemma NoMatchWithoutDot(prefix: string, c: char, entry: string)
    requires c != '.'
    ensures !Matches(prefix + [c] + entry, entry)
  {
  }

  // ---------------------------------------------------------------------
  // Profiles
  // ---------------------------------------------------------------------

  /** With no overrides, `strict` and any unknown profile deny every present host. */
  lemma ClosedProfileDeniesWithoutOverrides(eng: PolicyEngine, mediumDefaults: seq<string>, host: string)
    requires eng.profile != "open" && eng.profile != "medium"
    requires eng.allowlist == [] && host != ""
    ensures AllowlistDecision(eng, mediumDefaults, Some(host)) == Decision(false, Allowlist, HostDenied, HostInfo(host, None, eng.profile))
  {
  }

  // ---------------------------------------------------------------------
  // First match wins
  // ---------------------------------------------------------------------

  /**
   * Under a non-open profile, the reason and the recorded entry come from the
   * first entry of the effective list that admits the host.
   */
  lemma FirstAdmittingEntryDecides(eng: PolicyEngine, mediumDefaults: seq<string>, host: string)
    requires eng.profile != "open" && host != ""
    ensures var d, e := AllowlistDecision(eng, mediumDefaults, Some(host)), EffectiveAllowlist(eng, mediumDefaults);
      && (d.reason == Wildcard <==>
            exists i :: 0 <= i < |e| && e[i] == "*" && forall j :: 0 <= j < i ==> !Admits(e[j], host))
      && (d.reason == HostAllowed <==>
            exists i :: 0 <= i < |e| && e[i] != "*" && Matches(host, e[i]) && forall j :: 0 <= j < i ==> !Admits(e[j], host))
      && (d.reason == HostAllowed ==>
            exists i :: 0 <= i < |e| && e[i] != "*" && Matches(host, e[i]) &&
                        d.details == HostInfo(host, Some(e[i]), eng.profile) &&
                        forall j :: 0 <= j < i ==> !Admits(e[j], host))
      && (d.reason == HostDenied <==> forall i :: 0 <= i < |e| ==> !Admits(e[i], host))
      && (d.reason == HostDenied ==> d.details == HostInfo(host, None, eng.profile))
  {
  }

  /** A wildcard anywhere in the effective list allows every present host. */
  lemma WildcardAllowsEveryHost(eng: PolicyEngine, mediumDefaults: seq<string>, host: string)
    requires eng.profile != "open" && host != ""
    requires "*" in EffectiveAllowlist(eng, mediumDefaults)
    ensures AllowlistDecision(eng, mediumDefaults, Some(host)).allow
    ensures AllowlistDecision(eng, mediumDefaults, Some(host)).reason in {Wildcard, HostAllowed}
  {
  }

  // ---------------------------------------------------------------------
  // Tenant overrides are additive
  // ---------------------------------------------------------------------

  /** Replacing the overrides by a list holding at least the same entries never turns an allow into a deny. */
  lemma OverridesOnlyAdd(eng: PolicyEngine, mediumDefaults: seq<string>, host: Option<string>, more: seq<string>)
    requires forall x :: x in eng.allowlist ==> x in more
    ensures AllowlistDecision(eng, mediumDefaults, host).allow ==>
            AllowlistDecision(eng.(allowlist := more), mediumDefaults, host).allow
  {
    var bigger := eng.(allowlist := more);
    if eng.profile != "open" && !NoUsableHost(host) && AllowlistDecision(eng, mediumDefaults, host).allow {
      var e, e' := EffectiveAllowlist(eng, mediumDefaults), EffectiveAllowlist(bigger, mediumDefaults);
      var i :| 0 <= i < |e| && Admits(e[i], host.value);
      var base := ProfileAllowlist(eng.profile, mediumDefaults);
      if i < |base| {
        assert e'[i] == e[i];
      } else {
        assert e[i] in eng.allowlist;
        var k :| 0 <= k < |more| && more[k] == e[i];
        assert e'[|base| + k] == e[i];
      }
    }
  }

  /** Appending overrides keeps every allow. */
  lemma AppendedOverridesKeepAllows(eng: PolicyEngine, mediumDefaults: seq<string>, host: Option<string>, extra: seq<string>)
    ensures AllowlistDecision(eng, mediumDefaults, host).allow ==>
            AllowlistDecision(eng.(allowlist := eng.allowlist + extra), mediumDefaults, host).allow
  {
    OverridesOnlyAdd(eng, mediumDefaults, host, eng.allowlist + extra);
  }

  /** An override that admits a host allows it, whatever the profile's list says. */
  lemma OverrideAllowsHost(eng: PolicyEngine, mediumDefaults: seq<string>, host: string, entry: string)
    requires host != "" && entry in eng.allowlist && Admits(entry, host)
    ensures AllowlistDecision(eng, mediumDefaults, Some(host)).allow
  {
    if eng.profile != "open" {
      var e := EffectiveAllowlist(eng, mediumDefaults);
      var base := ProfileAllowlist(eng.profile, mediumDefaults);
      var k :| 0 <= k < |eng.allowlist| && eng.allowlist[k] == entry;
      assert e[|base| + k] == entry;
    }
  }

  // ---------------------------------------------------------------------
  // The evaluator tier
  // ---------------------------------------------------------------------

  /** A well-formed evaluator answer yields the value of its first expression of its first result. */
  lemma AnswerValueIsRead(answer: map<string, Json>, result: map<string, Json>, expression: map<string, Json>,
                          moreResults: seq<Json>, moreExpressions: seq<Json>, v: Json)
    requires "result" in answer && answer["result"] == JArray([JObject(result)] + moreResults)
    requires "expressions" in result && result["expressions"] == JArray([JObject(expression)] + moreExpressions)
    requires "value" in expression && expression["value"] == v
    ensures ResultValue(JObject(answer)) == Some(v)
  {
  }

  /** Output that does not hold `true` at the answer's value path is denied, whatever else it holds. */
  lemma MalformedAnswerDenies(out: Json, stderr: string)
    requires !AnswerHolds(out, JBool(true))
    ensures !RegoDecision(Exited(0, stderr, JsonOutput(out))).allow
    ensures RegoDecision(Exited(0, stderr, JsonOutput(out))).reason == RegoDeny
  {
  }

  /** An answer whose "result" is not a list yields no value, so the evaluator denies. */
  lemma NonListResultDenies(out: Json, stderr: string)
    requires Member(out, "result").Some? && !Member(out, "result").value.JArray?
    ensures ResultValue(out).None?
    ensures RegoDecision(Exited(0, stderr, JsonOutput(out))) == Decision(false, Rego, RegoDeny, ValueInfo(JNull))
  {
  }

  /** The evaluator's decision allows exactly when its value is `true`; every failure denies. */
  lemma EvaluatorFailsClosed(outcome: EvalOutcome)
    ensures RegoDecision(outcome).allow ==>
      outcome.Exited? && outcome.code == 0 && outcome.stdout.JsonOutput? &&
      ResultValue(outcome.stdout.out) == Some(JBool(true))
    ensures outcome.Raised? ==> RegoDecision(outcome) == Decision(false, Rego, RegoException, ErrorInfo(outcome.error))
    ensures outcome.Exited? && outcome.code != 0 ==>
      RegoDecision(outcome) == Decision(false, Rego, RegoError, StderrInfo(outcome.stderr))
    ensures outcome.Exited? && outcome.code == 0 && outcome.stdout.JsonOutput? &&
            ResultValue(outcome.stdout.out) != Some(JBool(true)) ==>
      RegoDecision(outcome) == Decision(false, Rego, RegoDeny, ValueInfo(ResultValue(outcome.stdout.out).GetOr(JNull)))
  {
  }

  /** Without a policy path the evaluator is never used, whatever the environment. */
  lemma NoPolicyPathNoEvaluator(eng: PolicyEngine, world: World)
    requires eng.regoPath.None? || eng.regoPath == Some("")
    ensures !RegoAvailable(eng, world)
  {
  }
}
