/** The compliance agent's post-processing: keyword rules applied on top of the model's analysis, the
    recomputed scores and risk levels, the risk metrics, and the rule-only fallback. */
module Compliance {
  import opened Wrappers
  import opened Text
  import opened Shared

  /** A violation record; the model's own violations may lack any field. */
  datatype Violation = Violation(kind: Option<string>, severity: Option<string>, description: Option<string>,
                                 matchedPattern: Option<string>, suggestion: Option<string>)

  /** A keyword rule: a case-insensitive alternation of literals, written in lower case. */
  datatype Rule = Rule(alternatives: seq<string>, pattern: string, severity: string, rule: string)

  /** The three rule sets. */
  datatype RuleSet = FinancialServices | Healthcare | General

  /** One entry of the model's `message_analyses`. */
  datatype AnalysisIn = AnalysisIn(id: Option<int>, violations: Option<seq<Violation>>)

  /** The model's reply once parsed: an object with optional `overall_compliance` and `message_analyses`,
      or some other JSON value. */
  datatype Reply = Object(overall: Option<real>, analyses: Option<seq<AnalysisIn>>) | NotObject

  /** `json.JSONDecodeError`. */
  datatype ParseError = ParseError

  /** A message analysis after the rule checks. */
  datatype MessageAnalysis = MessageAnalysis(id: Option<int>, violations: seq<Violation>, score: int,
                                             ruleChecksApplied: nat, risk: Risk)

  /** The result of `_apply_rule_based_checks`. */
  datatype RuleChecked = RuleChecked(analyses: seq<MessageAnalysis>, overall: real, ruleSet: RuleSet,
                                     totalRuleViolations: nat)

  /** `deployment_recommendation`. */
  datatype Recommendation = Approved | ReviewRequired | NotApproved

  /** `_calculate_risk_metrics`: `{"overall_risk": "UNKNOWN"}` or the full metrics. */
  datatype RiskMetrics =
    | Unknown
    | Metrics(overallRisk: Risk, highRisk: nat, mediumRisk: nat, lowRisk: nat, totalViolations: nat,
              avgScore: real, recommendation: Recommendation)

  /** A message analysis made by the fallback. */
  datatype FallbackAnalysis = FallbackAnalysis(id: int, score: int, violations: seq<Violation>, risk: Risk)

  /** The agent's `data` payload. */
  datatype Output =
    | Checked(checked: RuleChecked, metrics: RiskMetrics, scenario: string, timestamp: string)
    | FallbackChecked(overall: real, fallbackAnalyses: seq<FallbackAnalysis>, scenario: string)
    | Failed(overall: real, error: string, scenario: string)

  const InvalidFormatError := "Failed to process compliance analysis: Invalid compliance response format"

  function FinancialRules(): seq<Rule> {
    [ Rule(["guaranteed", "promise", "100%"], "guaranteed|promise|100%", "HIGH", "No absolute guarantees"),
      Rule(["click here", "act now", "urgent"], "click here|act now|urgent", "MEDIUM", "Avoid high-pressure language"),
      Rule(["free money", "instant cash"], "free money|instant cash", "HIGH", "No misleading financial claims") ]
  }

  function HealthcareRules(): seq<Rule> {
    [ Rule(["cure", "guaranteed healing", "miracle"], "cure|guaranteed healing|miracle", "HIGH", "No medical claims"),
      Rule(["personal health info"], "personal health info", "HIGH", "HIPAA compliance required"),
      Rule(["diagnose", "treatment guarantee"], "diagnose|treatment guarantee", "HIGH", "No medical advice") ]
  }

  function GeneralRules(): seq<Rule> {
    [ Rule(["winner", "you've won", "congratulations"], "winner|you've won|congratulations", "MEDIUM",
           "Avoid spam-like language"),
      Rule(["limited time", "expires soon", "hurry"], "limited time|expires soon|hurry", "LOW",
           "Moderate urgency language") ]
  }

  function RulesOf(rs: RuleSet): seq<Rule> {
    match rs
    case FinancialServices => FinancialRules()
    case Healthcare => HealthcareRules()
    case General => GeneralRules()
  }

  /** The rule set for a scenario: financial for insurance or financial scenarios, then healthcare, then general. */
  function RuleSetFor(scenario: string): (rs: RuleSet)
    ensures rs == FinancialServices <==> Contains(scenario, "insurance") || Contains(scenario, "financial")
    ensures rs == Healthcare <==>
              !Contains(scenario, "insurance") && !Contains(scenario, "financial") && Contains(scenario, "health")
  {
    if Contains(scenario, "insurance") || Contains(scenario, "financial") then FinancialServices
    else if Contains(scenario, "health") then Healthcare
    else General
  }

  /** `re.search(pattern, text, re.IGNORECASE)` for an alternation of lower-case literals. */
  predicate MatchesAny(text: string, alternatives: seq<string>)
    decreases |alternatives|
  {
    alternatives != [] && (ContainsIgnoreCase(text, alternatives[0]) || MatchesAny(text, alternatives[1..]))
  }

  /** The alternation matches exactly when one of its literals occurs in the text, ignoring case. */
  lemma {:induction false} MatchesAnySpec(text: string, alternatives: seq<string>)
    ensures MatchesAny(text, alternatives) <==> exists k :: 0 <= k < |alternatives| && ContainsIgnoreCase(text, alternatives[k])
    decreases |alternatives|
  {
    if alternatives != [] {
      MatchesAnySpec(text, alternatives[1..]);
      if !ContainsIgnoreCase(text, alternatives[0]) {
        forall k | 0 < k < |alternatives|
          ensures alternatives[k] == alternatives[1..][k - 1]
        {
        }
      }
    }
  }

  /** The violation a matching rule adds. */
  function RuleViolation(r: Rule): Violation {
    Violation(Some("rule_based_check"), Some(r.severity), Some(r.rule), Some(r.pattern),
              Some("Revise content to comply with " + r.rule))
  }

  /** The violations the rules find in a text: one per matching rule, in rule order. */
  function RuleViolations(text: string, rules: seq<Rule>): (vs: seq<Violation>)
    ensures |vs| <= |rules|
    decreases |rules|
  {
    if rules == [] then []
    else
      var last := rules[|rules| - 1];
      RuleViolations(text, rules[..|rules| - 1]) + if MatchesAny(text, last.alternatives) then [RuleViolation(last)] else []
  }

  /** A rule's violation is reported exactly when the rule matches, and every reported violation comes from a
      matching rule. */
  lemma {:induction false} RuleViolationsSpec(text: string, rules: seq<Rule>)
    ensures forall v :: v in RuleViolations(text, rules) <==>
              exists r :: r in rules && MatchesAny(text, r.alternatives) && v == RuleViolation(r)
    decreases |rules|
  {
    if rules != [] {
      var init := rules[..|rules| - 1];
      RuleViolationsSpec(text, init);
      assert rules == init + [rules[|rules| - 1]];
    }
  }

  /** The rule loop of `_apply_rule_based_checks` for one message. */
  method CheckRules(text: string, rules: seq<Rule>) returns (vs: seq<Violation>)
    ensures vs == RuleViolations(text, rules)
  {
    vs := [];
    for i := 0 to |rules|
      invariant vs == RuleViolations(text, rules[..i])
    {
      assert rules[..i + 1][..i] == rules[..i];
      if MatchesAny(text, rules[i].alternatives) {
        vs := vs + [RuleViolation(rules[i])];
      }
    }
    assert rules[..|rules|] == rules;
  }

  /** The content of the first message whose id equals `id` (absent content reads as ""), or "" when none does. */
  function ContentFor(messages: seq<MessageView>, id: Option<int>): string
    decreases |messages|
  {
    if messages == [] then ""
    else if messages[0].id == id then messages[0].content.GetOr("")
    else ContentFor(messages[1..], id)
  }

  /** `ContentFor` picks the first message with the id. */
  lemma {:induction false} ContentForFirst(messages: seq<MessageView>, id: Option<int>, k: nat)
    requires k < |messages| && messages[k].id == id
    requires forall j :: 0 <= j < k ==> messages[j].id != id
    ensures ContentFor(messages, id) == messages[k].content.GetOr("")
    decreases k
  {
    if k > 0 {
      ContentForFirst(messages[1..], id, k - 1);
    }
  }

  /** With no message carrying the id, the content is empty. */
  lemma {:induction false} ContentForNone(messages: seq<MessageView>, id: Option<int>)
    requires forall j :: 0 <= j < |messages| ==> messages[j].id != id
    ensures ContentFor(messages, id) == ""
    decreases |messages|
  {
    if messages != [] {
      ContentForNone(messages[1..], id);
    }
  }

  /** The inner search loop of `_apply_rule_based_checks`, stopping at the first match. */
  method FindContent(messages: seq<MessageView>, id: Option<int>) returns (text: string)
    ensures text == ContentFor(messages, id)
  {
    text := "";
    var i := 0;
    while i < |messages|
      invariant 0 <= i <= |messages|
      invariant ContentFor(messages, id) == ContentFor(messages[i..], id)
    {
      if messages[i].id == id {
        text := messages[i].content.GetOr("");
        return;
      }
      assert messages[i..][1..] == messages[i + 1..];
      i := i + 1;
    }
  }

  /** The number of violations with exactly the given severity. */
  function CountSeverity(vs: seq<Violation>, severity: string): (n: nat)
    ensures n <= |vs|
  {
    if vs == [] then 0 else (if vs[0].severity == Some(severity) then 1 else 0) + CountSeverity(vs[1..], severity)
  }

  lemma {:induction false} CountSeverityAppend(a: seq<Violation>, b: seq<Violation>, severity: string)
    ensures CountSeverity(a + b, severity) == CountSeverity(a, severity) + CountSeverity(b, severity)
    decreases |a|
  {
    if a == [] {
      assert a + b == b;
    } else {
      assert (a + b)[0] == a[0] && (a + b)[1..] == a[1..] + b;
      CountSeverityAppend(a[1..], b, severity);
    }
  }

  lemma {:induction false} CountSeverityPositive(vs: seq<Violation>, severity: string)
    ensures CountSeverity(vs, severity) > 0 <==> exists k :: 0 <= k < |vs| && vs[k].severity == Some(severity)
    decreases |vs|
  {
    if vs != [] {
      CountSeverityPositive(vs[1..], severity);
      assert forall k :: 0 < k < |vs| ==> vs[k] == vs[1..][k - 1];
    }
  }

  /** `max(0, 100 - 25*HIGH - 10*MEDIUM - 5*LOW)`. */
  function Score(vs: seq<Violation>): (s: int)
    ensures 0 <= s <= 100
    ensures s == 100 <==>
              CountSeverity(vs, "HIGH") == 0 && CountSeverity(vs, "MEDIUM") == 0 && CountSeverity(vs, "LOW") == 0
  {
    var raw := 100 - CountSeverity(vs, "HIGH") * 25 - CountSeverity(vs, "MEDIUM") * 10 - CountSeverity(vs, "LOW") * 5;
    if raw < 0 then 0 else raw
  }

  /** HIGH if any violation is HIGH, else MEDIUM if any is MEDIUM, else LOW. */
  function RiskOf(vs: seq<Violation>): (r: Risk)
    ensures r == High <==> exists k :: 0 <= k < |vs| && vs[k].severity == Some("HIGH")
    ensures r == Medium <==> (forall k :: 0 <= k < |vs| ==> vs[k].severity != Some("HIGH"))
                             && exists k :: 0 <= k < |vs| && vs[k].severity == Some("MEDIUM")
  {
    CountSeverityPositive(vs, "HIGH");
    CountSeverityPositive(vs, "MEDIUM");
    if CountSeverity(vs, "HIGH") > 0 then High else if CountSeverity(vs, "MEDIUM") > 0 then Medium else Low
  }

  /** An ordering of risk levels. */
  function RiskRank(r: Risk): nat {
    match r
    case Low => 0
    case Medium => 1
    case High => 2
  }

  /** More violations never raise the score nor lower the risk: the rule checks can only make a message's
      verdict stricter than the model's own violations made it. */
  lemma StricterWithMore(vs: seq<Violation>, extra: seq<Violation>)
    ensures Score(vs + extra) <= Score(vs)
    ensures RiskRank(RiskOf(vs + extra)) >= RiskRank(RiskOf(vs))
  {
    CountSeverityAppend(vs, extra, "HIGH");
    CountSeverityAppend(vs, extra, "MEDIUM");
    CountSeverityAppend(vs, extra, "LOW");
  }

  /** One message analysis after the rule checks: the model's violations followed by the rule hits, with
      the score and risk recomputed over all of them. */
  function Enhance(a: AnalysisIn, messages: seq<MessageView>, rules: seq<Rule>): (m: MessageAnalysis)
    ensures m.id == a.id
    ensures |m.violations| >= |a.violations.GetOr([])|
    ensures m.violations[..|a.violations.GetOr([])|] == a.violations.GetOr([])
    ensures m.violations[|a.violations.GetOr([])|..] == RuleViolations(ContentFor(messages, a.id), rules)
    ensures m.ruleChecksApplied == |m.violations| - |a.violations.GetOr([])| <= |rules|
    ensures 0 <= m.score <= 100 && m.score == Score(m.violations)
    ensures m.risk == RiskOf(m.violations)
  {
    var own := a.violations.GetOr([]);
    var hits := RuleViolations(ContentFor(messages, a.id), rules);
    assert (own + hits)[..|own|] == own && (own + hits)[|own|..] == hits;
    MessageAnalysis(a.id, own + hits, Score(own + hits), |hits|, RiskOf(own + hits))
  }

  function TotalScore(ms: seq<MessageAnalysis>): int {
    if ms == [] then 0 else ms[0].score + TotalScore(ms[1..])
  }

  function TotalRuleHits(ms: seq<MessageAnalysis>): nat {
    if ms == [] then 0 else ms[0].ruleChecksApplied + TotalRuleHits(ms[1..])
  }

  lemma {:induction false} TotalScoreSnoc(ms: seq<MessageAnalysis>, m: MessageAnalysis)
    ensures TotalScore(ms + [m]) == TotalScore(ms) + m.score
    ensures TotalRuleHits(ms + [m]) == TotalRuleHits(ms) + m.ruleChecksApplied
    decreases |ms|
  {
    if ms != [] {
      assert (ms + [m])[1..] == ms[1..] + [m];
      TotalScoreSnoc(ms[1..], m);
    }
  }

  /** The body of the analysis loop of `_apply_rule_based_checks`. */
  method EnhanceOne(a: AnalysisIn, messages: seq<MessageView>, rules: seq<Rule>) returns (m: MessageAnalysis)
    ensures m == Enhance(a, messages, rules)
  {
    var text := FindContent(messages, a.id);
    var hits := CheckRules(text, rules);
    var all := a.violations.GetOr([]) + hits;
    m := MessageAnalysis(a.id, all, Score(all), |hits|, RiskOf(all));
  }

  /** The two sums `_apply_rule_based_checks` takes over the enhanced analyses. */
  method Totals(ms: seq<MessageAnalysis>) returns (total: int, ruleHits: nat)
    ensures total == TotalScore(ms) && ruleHits == TotalRuleHits(ms)
  {
    total := 0;
    ruleHits := 0;
    for i := 0 to |ms|
      invariant total == TotalScore(ms[..i])
      invariant ruleHits == TotalRuleHits(ms[..i])
    {
      TotalScoreSnoc(ms[..i], ms[i]);
      assert ms[..i + 1] == ms[..i] + [ms[i]];
      total := total + ms[i].score;
      ruleHits := ruleHits + ms[i].ruleChecksApplied;
    }
    assert ms[..|ms|] == ms;
  }

  /** The analysis loop of `_apply_rule_based_checks`: one enhanced analysis per model analysis, in order. */
  method EnhanceAll(analyses: seq<AnalysisIn>, messages: seq<MessageView>, rules: seq<Rule>)
    returns (enhanced: seq<MessageAnalysis>)
    ensures |enhanced| == |analyses|
    ensures forall i :: 0 <= i < |analyses| ==> enhanced[i] == Enhance(analyses[i], messages, rules)
  {
    enhanced := [];
    for i := 0 to |analyses|
      invariant |enhanced| == i
      invariant forall j :: 0 <= j < i ==> enhanced[j] == Enhance(analyses[j], messages, rules)
    {
      var m := EnhanceOne(analyses[i], messages, rules);
      enhanced := enhanced + [m];
    }
  }

  /** `_apply_rule_based_checks`: one enhanced analysis per model analysis, in order; the overall score is
      their mean, or the model's value (50 when absent) when there are none. */
  method ApplyRuleChecks(analyses: seq<AnalysisIn>, llmOverall: Option<real>, messages: seq<MessageView>,
                         scenario: string)
    returns (r: RuleChecked)
    ensures r.ruleSet == RuleSetFor(scenario)
    ensures |r.analyses| == |analyses|
    ensures forall i :: 0 <= i < |analyses| ==>
              r.analyses[i] == Enhance(analyses[i], messages, RulesOf(RuleSetFor(scenario)))
    ensures analyses != [] ==> r.overall == TotalScore(r.analyses) as real / |analyses| as real
    ensures analyses == [] ==> r.overall == llmOverall.GetOr(50.0)
    ensures r.totalRuleViolations == TotalRuleHits(r.analyses)
  {
    var ruleSet := RuleSetFor(scenario);
    var enhanced := EnhanceAll(analyses, messages, RulesOf(ruleSet));
    var total, ruleHits := Totals(enhanced);
    var overall := llmOverall.GetOr(50.0);
    if enhanced != [] {
      overall := total as real / |enhanced| as real;
    }
    r := RuleChecked(enhanced, overall, ruleSet, ruleHits);
  }

  function CountRisk(ms: seq<MessageAnalysis>, level: Risk): (n: nat)
    ensures n <= |ms|
  {
    if ms == [] then 0 else (if ms[0].risk == level then 1 else 0) + CountRisk(ms[1..], level)
  }

  function TotalViolations(ms: seq<MessageAnalysis>): nat {
    if ms == [] then 0 else |ms[0].violations| + TotalViolations(ms[1..])
  }

  /** Every analysis is counted under exactly one of the three levels. */
  lemma {:induction false} RiskCountsPartition(ms: seq<MessageAnalysis>)
    ensures CountRisk(ms, High) + CountRisk(ms, Medium) + CountRisk(ms, Low) == |ms|
    decreases |ms|
  {
    if ms != [] {
      RiskCountsPartition(ms[1..]);
    }
  }

  function RecommendationFor(r: Risk): Recommendation {
    match r
    case Low => Approved
    case Medium => ReviewRequired
    case High => NotApproved
  }

  /** `_calculate_risk_metrics` over the enhanced analyses and their overall score. */
  function RiskMetricsOf(ms: seq<MessageAnalysis>, avg: real): (m: RiskMetrics)
    ensures m == Unknown <==> ms == []
    ensures m.Metrics? ==> m.highRisk + m.mediumRisk + m.lowRisk == |ms|
    ensures m.Metrics? ==> (m.overallRisk == High <==> m.highRisk > 0 || avg < 60.0)
    ensures m.Metrics? ==> (m.overallRisk == Low <==> m.highRisk == 0 && m.mediumRisk == 0 && avg >= 80.0)
    ensures m.Metrics? ==> (m.recommendation == Approved <==> m.overallRisk == Low)
    ensures m.Metrics? ==> (m.recommendation == NotApproved <==> m.overallRisk == High)
    ensures m.Metrics? ==> m.avgScore == avg && m.totalViolations == TotalViolations(ms)
  {
    if ms == [] then Unknown
    else
      RiskCountsPartition(ms);
      var high := CountRisk(ms, High);
      var medium := CountRisk(ms, Medium);
      var risk := if high > 0 || avg < 60.0 then High else if medium > 0 || avg < 80.0 then Medium else Low;
      Metrics(risk, high, medium, CountRisk(ms, Low), TotalViolations(ms), avg, RecommendationFor(risk))
  }

  const AbsoluteClaims := ["guaranteed", "promise", "100%"]
  const HighPressure := ["click here", "act now", "urgent"]

  function AbsoluteClaimsViolation(): Violation {
    Violation(Some("absolute_claims"), Some("HIGH"), Some("Contains absolute guarantees"), None,
              Some("Use qualified language like 'may' or 'potential'"))
  }

  function HighPressureViolation(): Violation {
    Violation(Some("high_pressure"), Some("MEDIUM"), Some("High-pressure language detected"), None,
              Some("Use gentler call-to-action language"))
  }

  /** The fallback's analysis of message `i`: the two checks only, scored `max(0, 100 - 30*HIGH - 15*MEDIUM)`. */
  function FallbackAnalysisOf(i: nat, m: MessageView): (a: FallbackAnalysis)
    ensures a.id == m.id.GetOr(i + 1)
    ensures AbsoluteClaimsViolation() in a.violations <==> MatchesAny(m.content.GetOr(""), AbsoluteClaims)
    ensures HighPressureViolation() in a.violations <==> MatchesAny(m.content.GetOr(""), HighPressure)
    ensures a.score in {100, 85, 70, 55}
    ensures a.score == 100 - 30 * CountSeverity(a.violations, "HIGH") - 15 * CountSeverity(a.violations, "MEDIUM")
    ensures a.risk == High <==> MatchesAny(m.content.GetOr(""), AbsoluteClaims)
    ensures a.risk == Low <==> a.violations == []
  {
    var text := m.content.GetOr("");
    var claims := if MatchesAny(text, AbsoluteClaims) then [AbsoluteClaimsViolation()] else [];
    var pressure := if MatchesAny(text, HighPressure) then [HighPressureViolation()] else [];
    var vs := claims + pressure;
    var raw := 100 - |claims| * 30 - |pressure| * 15;
    FallbackAnalysis(m.id.GetOr(i + 1), if raw < 0 then 0 else raw, vs,
                     if claims != [] then High else if vs != [] then Medium else Low)
  }

  function TotalFallbackScore(as_: seq<FallbackAnalysis>): int {
    if as_ == [] then 0 else as_[0].score + TotalFallbackScore(as_[1..])
  }

  lemma {:induction false} TotalFallbackScoreSnoc(as_: seq<FallbackAnalysis>, a: FallbackAnalysis)
    ensures TotalFallbackScore(as_ + [a]) == TotalFallbackScore(as_) + a.score
    decreases |as_|
  {
    if as_ != [] {
      assert (as_ + [a])[1..] == as_[1..] + [a];
      TotalFallbackScoreSnoc(as_[1..], a);
    }
  }

  /** Scores that all lie in [55, 100] add up to between 55 and 100 times their number. */
  lemma {:induction false} FallbackTotalBounds(as_: seq<FallbackAnalysis>)
    requires forall k :: 0 <= k < |as_| ==> 55 <= as_[k].score <= 100
    ensures 55 * |as_| <= TotalFallbackScore(as_) <= 100 * |as_|
    decreases |as_|
  {
    if as_ != [] {
      FallbackTotalBounds(as_[1..]);
    }
  }

  /** The body of the message loop of `_fallback_compliance_analysis`. */
  method FallbackOne(i: nat, m: MessageView) returns (a: FallbackAnalysis)
    ensures a == FallbackAnalysisOf(i, m)
  {
    var text := m.content.GetOr("");
    var violations: seq<Violation> := [];
    var high := 0;
    var medium := 0;
    if MatchesAny(text, AbsoluteClaims) {
      violations := violations + [AbsoluteClaimsViolation()];
      high := high + 1;
    }
    if MatchesAny(text, HighPressure) {
      violations := violations + [HighPressureViolation()];
      medium := medium + 1;
    }
    var raw := 100 - high * 30 - medium * 15;
    var score := if raw < 0 then 0 else raw;
    var risk := if high > 0 then High else if violations != [] then Medium else Low;
    a := FallbackAnalysis(m.id.GetOr(i + 1), score, violations, risk);
  }

  /** The message loop of `_fallback_compliance_analysis`. */
  method FallbackAll(messages: seq<MessageView>) returns (analyses: seq<FallbackAnalysis>)
    ensures |analyses| == |messages|
    ensures forall i :: 0 <= i < |messages| ==> analyses[i] == FallbackAnalysisOf(i, messages[i])
  {
    analyses := [];
    for i := 0 to |messages|
      invariant |analyses| == i
      invariant forall j :: 0 <= j < i ==> analyses[j] == FallbackAnalysisOf(j, messages[j])
    {
      var a := FallbackOne(i, messages[i]);
      analyses := analyses + [a];
    }
  }

  /** The sum of the fallback scores. */
  method FallbackTotal(as_: seq<FallbackAnalysis>) returns (total: int)
    ensures total == TotalFallbackScore(as_)
  {
    total := 0;
    for i := 0 to |as_|
      invariant total == TotalFallbackScore(as_[..i])
    {
      TotalFallbackScoreSnoc(as_[..i], as_[i]);
      assert as_[..i + 1] == as_[..i] + [as_[i]];
      total := total + as_[i].score;
    }
    assert as_[..|as_|] == as_;
  }

  /** The fallback's overall score, the mean of scores that each lie in [55, 100], lies in [55, 100]. */
  lemma FallbackMeanBounds(as_: seq<FallbackAnalysis>)
    requires as_ != []
    requires forall k :: 0 <= k < |as_| ==> 55 <= as_[k].score <= 100
    ensures 55.0 <= TotalFallbackScore(as_) as real / |as_| as real <= 100.0
  {
    FallbackTotalBounds(as_);
    MeanBounds(TotalFallbackScore(as_) as real, |as_| as real, 55.0, 100.0);
  }

  /** `_fallback_compliance_analysis`: one analysis per message, in order; the overall score is their mean,
      or 0 with no messages, and so lies between 55 and 100 whenever there is a message. */
  method FallbackCompliance(messages: seq<MessageView>, scenario: string) returns (out: Output)
    ensures out.FallbackChecked? && out.scenario == scenario
    ensures |out.fallbackAnalyses| == |messages|
    ensures forall i :: 0 <= i < |messages| ==> out.fallbackAnalyses[i] == FallbackAnalysisOf(i, messages[i])
    ensures messages == [] ==> out.overall == 0.0
    ensures messages != [] ==> out.overall == TotalFallbackScore(out.fallbackAnalyses) as real / |messages| as real
    ensures messages != [] ==> 55.0 <= out.overall <= 100.0
  {
    var analyses := FallbackAll(messages);
    var overall := 0.0;
    if analyses != [] {
      var total := FallbackTotal(analyses);
      FallbackMeanBounds(analyses);
      overall := total as real / |analyses| as real;
    }
    out := FallbackChecked(overall, analyses, scenario);
  }

  /** `_process_llm_response`: a reply that is not JSON goes to the fallback; JSON that is not an object
      yields the error record with `overall_compliance` 50; an object gets the rule checks and risk metrics. */
  method ProcessReply(parsed: Result<Reply, ParseError>, messages: seq<MessageView>, scenario: string,
                      startTime: Option<string>)
    returns (out: Output)
    ensures parsed.Failure? ==>
              && out.FallbackChecked? && out.scenario == scenario
              && |out.fallbackAnalyses| == |messages|
              && (forall i :: 0 <= i < |messages| ==> out.fallbackAnalyses[i] == FallbackAnalysisOf(i, messages[i]))
              && (messages == [] ==> out.overall == 0.0)
              && (messages != [] ==> out.overall == TotalFallbackScore(out.fallbackAnalyses) as real / |messages| as real)
              && (messages != [] ==> 55.0 <= out.overall <= 100.0)
    ensures parsed.Success? && parsed.value.NotObject? ==> out == Failed(50.0, InvalidFormatError, scenario)
    ensures parsed.Success? && parsed.value.Object? ==>
              && out.Checked?
              && out.scenario == scenario
              && out.timestamp == startTime.GetOr("")
              && |out.checked.analyses| == |parsed.value.analyses.GetOr([])|
              && out.checked.ruleSet == RuleSetFor(scenario)
              && (forall i :: 0 <= i < |out.checked.analyses| ==>
                    out.checked.analyses[i]
                    == Enhance(parsed.value.analyses.GetOr([])[i], messages, RulesOf(RuleSetFor(scenario))))
              && (parsed.value.analyses.GetOr([]) != [] ==>
                    out.checked.overall == TotalScore(out.checked.analyses) as real / |out.checked.analyses| as real)
              && (parsed.value.analyses.GetOr([]) == [] ==> out.checked.overall == parsed.value.overall.GetOr(50.0))
              && out.checked.totalRuleViolations == TotalRuleHits(out.checked.analyses)
              && out.metrics == RiskMetricsOf(out.checked.analyses, out.checked.overall)
  {
    match parsed {
      case Failure(_) =>
        out := FallbackCompliance(messages, scenario);
      case Success(NotObject) =>
        out := Failed(50.0, InvalidFormatError, scenario);
      case Success(Object(overall, analyses)) =>
        var checked := ApplyRuleChecks(analyses.GetOr([]), overall, messages, scenario);
        out := Checked(checked, RiskMetricsOf(checked.analyses, checked.overall), scenario, startTime.GetOr(""));
    }
  }
}
