/** The decision agent's post-processing: the weighted ranking of the reviewed messages, the outcome
    prediction, the risk assessment, the deployment status, the decision confidence and the
    rule-based fallback used when the model's reply is not JSON. */
module Decision {
  import opened Wrappers
  import opened Shared
  import Feedback
  import Compliance
  import opened StableSort

  /** One entry of the compliance agent's `message_analyses` as this agent reads it. `None` stands for an
      empty (falsy) entry, which the ranking and the searches skip. */
  datatype AnalysisView = AnalysisView(id: Option<int>, score: Option<real>, risk: Option<Risk>,
                                       violations: Option<nat>)

  type Analysis = Option<AnalysisView>

  type FeedbackEntry = Feedback.FeedbackEntry

  /** A risk label as the model's reply writes it: one of the three levels, or any other text. */
  datatype Label = Level(level: Risk) | Other(text: string)

  /** The view of one rule-checked analysis of the compliance agent. */
  function CheckedView(m: Compliance.MessageAnalysis): AnalysisView {
    AnalysisView(m.id, Some(m.score as real), Some(m.risk), Some(|m.violations|))
  }

  /** The view of one analysis of the compliance agent's fallback. */
  function FallbackView(m: Compliance.FallbackAnalysis): AnalysisView {
    AnalysisView(Some(m.id), Some(m.score as real), Some(m.risk), Some(|m.violations|))
  }

  /** `message_analyses` as this agent reads it from the compliance agent's payload: the rule-checked
      analyses, the fallback's, or none from the error record. Every entry is present and carries one of the
      three risk levels. */
  function AnalysesOf(o: Compliance.Output): (as_: seq<Analysis>)
    ensures o.Failed? ==> as_ == []
    ensures o.Checked? ==> |as_| == |o.checked.analyses|
    ensures o.Checked? ==> forall i :: 0 <= i < |as_| ==> as_[i] == Some(CheckedView(o.checked.analyses[i]))
    ensures o.FallbackChecked? ==> |as_| == |o.fallbackAnalyses|
    ensures o.FallbackChecked? ==> forall i :: 0 <= i < |as_| ==> as_[i] == Some(FallbackView(o.fallbackAnalyses[i]))
    ensures forall i :: 0 <= i < |as_| ==> as_[i].Some? && as_[i].value.risk.Some? && as_[i].value.score.Some?
  {
    match o
    case Checked(c, _, _, _) =>
      seq(|c.analyses|, i requires 0 <= i < |c.analyses| => Some(CheckedView(c.analyses[i])))
    case FallbackChecked(_, fa, _) =>
      seq(|fa|, i requires 0 <= i < |fa| => Some(FallbackView(fa[i])))
    case Failed(_, _, _) => []
  }

  /** A row of the weight table: compliance, customer sentiment, action likelihood, clarity. */
  datatype Weights = Weights(compliance: real, sentiment: real, action: real, clarity: real)

  /** A ranked message: its composite and component scores and its rank (0 until ranks are written). */
  datatype Scored = Scored(id: int, composite: real, compliance: real, sentiment: real, action: real,
                           clarity: real, rank: nat)

  // ---------------------------------------------------------------------------------------------
  // Weights

  const DefaultWeights := Weights(0.35, 0.3, 0.25, 0.1)

  /** `decision_weights.get(scenario, decision_weights['default'])`. */
  function WeightsFor(scenario: string): (w: Weights)
    ensures w.compliance + w.sentiment + w.action + w.clarity == 1.0
    ensures w.compliance > 0.0 && w.sentiment > 0.0 && w.action > 0.0 && w.clarity > 0.0
    ensures (scenario != "insurance_renewal" && scenario != "healthcare_reminder"
             && scenario != "loan_reminder" && scenario != "ecommerce_promotion") ==> w == DefaultWeights
  {
    if scenario == "insurance_renewal" then Weights(0.4, 0.3, 0.2, 0.1)
    else if scenario == "healthcare_reminder" then Weights(0.5, 0.2, 0.2, 0.1)
    else if scenario == "loan_reminder" then Weights(0.45, 0.25, 0.2, 0.1)
    else if scenario == "ecommerce_promotion" then Weights(0.3, 0.25, 0.35, 0.1)
    else DefaultWeights
  }

  /** The weighted composite score of a compliance score out of 100 and three feedback scores out of 10. */
  function Composite(c: real, s: real, a: real, cl: real, w: Weights): real {
    (c / 100.0 * w.compliance + s / 10.0 * w.sentiment + a / 10.0 * w.action + cl / 10.0 * w.clarity) * 100.0
  }

  /** With the compliance score in [0, 100] and the feedback scores in [0, 10], the composite score lies in
      [0, 100], since every weight row sums to 1. */
  lemma CompositeWithin(c: real, s: real, a: real, cl: real, scenario: string)
    requires 0.0 <= c <= 100.0 && 0.0 <= s <= 10.0 && 0.0 <= a <= 10.0 && 0.0 <= cl <= 10.0
    ensures 0.0 <= Composite(c, s, a, cl, WeightsFor(scenario)) <= 100.0
  {
    var w := WeightsFor(scenario);
    assert c / 100.0 * w.compliance <= w.compliance;
    assert s / 10.0 * w.sentiment <= w.sentiment;
    assert a / 10.0 * w.action <= w.action;
    assert cl / 10.0 * w.clarity <= w.clarity;
  }

  // ---------------------------------------------------------------------------------------------
  // The feedback lookup: the last entry with a given id wins

  /** `feedback_lookup.get(id)`, where the lookup maps each id to the last entry that carries it. */
  function LastFor(fs: seq<FeedbackEntry>, id: int): Option<FeedbackEntry>
    decreases |fs|
  {
    if fs == [] then None
    else if fs[|fs| - 1].id == Some(id) then Some(fs[|fs| - 1])
    else LastFor(fs[..|fs| - 1], id)
  }

  /** The lookup finds an entry exactly when some entry carries the id, and then it is the last one. */
  lemma {:induction false} LastForSpec(fs: seq<FeedbackEntry>, id: int)
    ensures LastFor(fs, id).None? <==> forall k :: 0 <= k < |fs| ==> fs[k].id != Some(id)
    ensures LastFor(fs, id).Some? ==>
              exists k :: 0 <= k < |fs| && fs[k] == LastFor(fs, id).value && fs[k].id == Some(id)
                          && forall j :: k < j < |fs| ==> fs[j].id != Some(id)
    decreases |fs|
  {
    if fs != [] {
      var init := fs[..|fs| - 1];
      LastForSpec(init, id);
      assert forall k :: 0 <= k < |init| ==> init[k] == fs[k];
      if fs[|fs| - 1].id != Some(id) && LastFor(init, id).Some? {
        var k :| 0 <= k < |init| && init[k] == LastFor(init, id).value && init[k].id == Some(id)
                 && forall j :: k < j < |init| ==> init[j].id != Some(id);
        assert fs[k] == LastFor(fs, id).value;
      }
    }
  }

  /** `lookup.get(id)` on a Python dictionary. */
  function Lookup(m: map<int, FeedbackEntry>, id: int): Option<FeedbackEntry> {
    if id in m then Some(m[id]) else None
  }

  /** The loop that builds `feedback_lookup`: every entry with a `message_id`, later ones overwriting. */
  method BuildLookup(fs: seq<FeedbackEntry>) returns (m: map<int, FeedbackEntry>)
    ensures forall id :: Lookup(m, id) == LastFor(fs, id)
  {
    m := map[];
    for i := 0 to |fs|
      invariant forall id :: Lookup(m, id) == LastFor(fs[..i], id)
    {
      assert fs[..i + 1][..i] == fs[..i];
      if fs[i].id.Some? {
        m := m[fs[i].id.value := fs[i]];
      }
    }
    assert fs[..|fs|] == fs;
  }

  // ---------------------------------------------------------------------------------------------
  // The ranking rows

  /** The row of one analysis, its feedback (if any) found under its id; missing scores default to 0 for
      compliance and 5 for the feedback scores. */
  function Row(m: AnalysisView, f: Option<FeedbackEntry>, w: Weights): (r: Scored)
    ensures r.id == m.id.GetOr(0) && r.compliance == m.score.GetOr(0.0) && r.rank == 0
    ensures f.None? ==> r.sentiment == 5.0 && r.action == 5.0 && r.clarity == 5.0
    ensures r.composite == Composite(r.compliance, r.sentiment, r.action, r.clarity, w)
  {
    var s := if f.Some? then f.value.sentiment.GetOr(5.0) else 5.0;
    var a := if f.Some? then f.value.action.GetOr(5.0) else 5.0;
    var cl := if f.Some? then f.value.clarity.GetOr(5.0) else 5.0;
    var c := m.score.GetOr(0.0);
    Scored(m.id.GetOr(0), Composite(c, s, a, cl, w), c, s, a, cl, 0)
  }

  /** The non-empty analyses, in order. */
  function Present(analyses: seq<Analysis>): (ps: seq<AnalysisView>)
    ensures |ps| <= |analyses|
    decreases |analyses|
  {
    if analyses == [] then []
    else
      var last := analyses[|analyses| - 1];
      Present(analyses[..|analyses| - 1]) + (if last.Some? then [last.value] else [])
  }

  /** The unsorted rows: one per non-empty analysis, in order. */
  function Rows(analyses: seq<Analysis>, fs: seq<FeedbackEntry>, w: Weights): seq<Scored>
    decreases |analyses|
  {
    if analyses == [] then []
    else
      var last := analyses[|analyses| - 1];
      Rows(analyses[..|analyses| - 1], fs, w)
      + (if last.Some? then [Row(last.value, LastFor(fs, last.value.id.GetOr(0)), w)] else [])
  }

  /** There is one row per non-empty analysis, built from that analysis. */
  lemma {:induction false} RowsSpec(analyses: seq<Analysis>, fs: seq<FeedbackEntry>, w: Weights)
    ensures |Rows(analyses, fs, w)| == |Present(analyses)|
    ensures forall i :: 0 <= i < |Present(analyses)| ==>
              Rows(analyses, fs, w)[i] == Row(Present(analyses)[i], LastFor(fs, Present(analyses)[i].id.GetOr(0)), w)
    decreases |analyses|
  {
    if analyses != [] {
      RowsSpec(analyses[..|analyses| - 1], fs, w);
    }
  }

  /** The row-building loop of `_calculate_message_ranking`. */
  method ScoreRows(analyses: seq<Analysis>, lookup: map<int, FeedbackEntry>, ghost fs: seq<FeedbackEntry>,
                   w: Weights)
    returns (rows: seq<Scored>)
    requires forall id :: Lookup(lookup, id) == LastFor(fs, id)
    ensures rows == Rows(analyses, fs, w)
  {
    rows := [];
    for i := 0 to |analyses|
      invariant rows == Rows(analyses[..i], fs, w)
    {
      assert analyses[..i + 1][..i] == analyses[..i];
      if analyses[i].Some? {
        var m := analyses[i].value;
        rows := rows + [Row(m, Lookup(lookup, m.id.GetOr(0)), w)];
      }
    }
    assert analyses[..|analyses|] == analyses;
  }

  // ---------------------------------------------------------------------------------------------
  // Sorting and ranking

  /** The sort key of a row. */
  function CompositeOf(r: Scored): real {
    r.composite
  }

  /** The rows with `rank` set to their position plus one. */
  function Ranks(xs: seq<Scored>): (r: seq<Scored>)
    ensures |r| == |xs|
    ensures forall i :: 0 <= i < |xs| ==> r[i] == xs[i].(rank := i + 1)
  {
    seq(|xs|, i requires 0 <= i < |xs| => xs[i].(rank := i + 1))
  }

  /** `for i, ranking in enumerate(rankings): ranking['rank'] = i + 1`. */
  method AssignRanks(a: array<Scored>)
    modifies a
    ensures a[..] == Ranks(old(a[..]))
  {
    for i := 0 to a.Length
      invariant forall k :: 0 <= k < i ==> a[k] == old(a[k]).(rank := k + 1)
      invariant forall k :: i <= k < a.Length ==> a[k] == old(a[k])
    {
      a[i] := a[i].(rank := i + 1);
    }
  }

  /** The ranking `_calculate_message_ranking` returns. */
  function RankingOf(analyses: seq<Analysis>, fs: seq<FeedbackEntry>, scenario: string): seq<Scored> {
    Ranks(SortDesc(Rows(analyses, fs, WeightsFor(scenario)), CompositeOf))
  }

  /** `_calculate_message_ranking`. */
  method CalculateRanking(analyses: seq<Analysis>, fs: seq<FeedbackEntry>, scenario: string)
    returns (ranking: seq<Scored>)
    ensures ranking == RankingOf(analyses, fs, scenario)
  {
    var w := WeightsFor(scenario);
    if analyses == [] {
      return [];
    }
    var lookup := BuildLookup(fs);
    var rows := ScoreRows(analyses, lookup, fs, w);
    var a := new Scored[|rows|](i requires 0 <= i < |rows| => rows[i]);
    assert a[..] == rows;
    SortArray(a, CompositeOf);
    AssignRanks(a);
    ranking := a[..];
  }

  /** The ranking has one entry per non-empty analysis, ranked 1..n by non-increasing composite score; it
      holds exactly the rows of those analyses, and rows with equal scores keep the analyses' order. */
  lemma RankingSpec(analyses: seq<Analysis>, fs: seq<FeedbackEntry>, scenario: string)
    ensures var ranking, rows := RankingOf(analyses, fs, scenario), Rows(analyses, fs, WeightsFor(scenario));
            && |ranking| == |Present(analyses)|
            && (forall i :: 0 <= i < |ranking| ==> ranking[i].rank == i + 1)
            && (forall i, j :: 0 <= i < j < |ranking| ==> ranking[i].composite >= ranking[j].composite)
            && (forall i :: 0 <= i < |ranking| ==> ranking[i] == SortDesc(rows, CompositeOf)[i].(rank := i + 1))
            && multiset(SortDesc(rows, CompositeOf)) == multiset(rows)
            && (forall k :: WithKey(SortDesc(rows, CompositeOf), CompositeOf, k) == WithKey(rows, CompositeOf, k))
  {
    var rows := Rows(analyses, fs, WeightsFor(scenario));
    RowsSpec(analyses, fs, WeightsFor(scenario));
    SortDescSpec(rows, CompositeOf);
  }

  // ---------------------------------------------------------------------------------------------
  // Searching for the recommended message

  /** The first non-empty analysis whose `message_id` is `id`. */
  function FirstAnalysis(analyses: seq<Analysis>, id: int): Option<AnalysisView>
    decreases |analyses|
  {
    if analyses == [] then None
    else if analyses[0].Some? && analyses[0].value.id == Some(id) then analyses[0]
    else FirstAnalysis(analyses[1..], id)
  }

  /** The search finds an analysis exactly when one carries the id, and then the first such. */
  lemma {:induction false} FirstAnalysisSpec(analyses: seq<Analysis>, id: int)
    ensures FirstAnalysis(analyses, id).None? <==>
              forall k :: 0 <= k < |analyses| ==> analyses[k].None? || analyses[k].value.id != Some(id)
    ensures FirstAnalysis(analyses, id).Some? ==>
              exists k :: 0 <= k < |analyses| && analyses[k] == FirstAnalysis(analyses, id)
                          && FirstAnalysis(analyses, id).value.id == Some(id)
                          && forall j :: 0 <= j < k ==> analyses[j].None? || analyses[j].value.id != Some(id)
    decreases |analyses|
  {
    if analyses != [] {
      FirstAnalysisSpec(analyses[1..], id);
      assert forall k :: 1 <= k < |analyses| ==> analyses[k] == analyses[1..][k - 1];
      if !(analyses[0].Some? && analyses[0].value.id == Some(id)) && FirstAnalysis(analyses[1..], id).Some? {
        var k :| 0 <= k < |analyses[1..]| && analyses[1..][k] == FirstAnalysis(analyses[1..], id)
                 && FirstAnalysis(analyses[1..], id).value.id == Some(id)
                 && forall j :: 0 <= j < k ==> analyses[1..][j].None? || analyses[1..][j].value.id != Some(id);
        assert analyses[k + 1] == FirstAnalysis(analyses, id);
      }
    }
  }

  /** The loop `for m in message_analyses: if m and m.get('message_id') == message_id: ...; break`. */
  method FindAnalysis(analyses: seq<Analysis>, id: int) returns (found: Option<AnalysisView>)
    ensures found == FirstAnalysis(analyses, id)
  {
    found := None;
    var i := 0;
    while i < |analyses|
      invariant 0 <= i <= |analyses|
      invariant FirstAnalysis(analyses, id) == FirstAnalysis(analyses[i..], id)
    {
      assert analyses[i..][1..] == analyses[i + 1..];
      if analyses[i].Some? && analyses[i].value.id == Some(id) {
        found := analyses[i];
        return;
      }
      i := i + 1;
    }
  }

  /** The first feedback entry whose `message_id` is `id`. */
  function FirstFeedback(fs: seq<FeedbackEntry>, id: int): Option<FeedbackEntry>
    decreases |fs|
  {
    if fs == [] then None
    else if fs[0].id == Some(id) then Some(fs[0])
    else FirstFeedback(fs[1..], id)
  }

  /** The search finds an entry exactly when one carries the id, and then the first such. */
  lemma {:induction false} FirstFeedbackSpec(fs: seq<FeedbackEntry>, id: int)
    ensures FirstFeedback(fs, id).None? <==> forall k :: 0 <= k < |fs| ==> fs[k].id != Some(id)
    ensures FirstFeedback(fs, id).Some? ==>
              exists k :: 0 <= k < |fs| && fs[k] == FirstFeedback(fs, id).value && fs[k].id == Some(id)
                          && forall j :: 0 <= j < k ==> fs[j].id != Some(id)
    decreases |fs|
  {
    if fs != [] {
      FirstFeedbackSpec(fs[1..], id);
      assert forall k :: 1 <= k < |fs| ==> fs[k] == fs[1..][k - 1];
      if fs[0].id != Some(id) && FirstFeedback(fs[1..], id).Some? {
        var k :| 0 <= k < |fs[1..]| && fs[1..][k] == FirstFeedback(fs[1..], id).value && fs[1..][k].id == Some(id)
                 && forall j :: 0 <= j < k ==> fs[1..][j].id != Some(id);
        assert fs[k + 1] == FirstFeedback(fs, id).value;
      }
    }
  }

  /** The loop `for f in feedback_analyses: if f and f.get('message_id') == message_id: ...; break`. */
  method FindFeedback(fs: seq<FeedbackEntry>, id: int) returns (found: Option<FeedbackEntry>)
    ensures found == FirstFeedback(fs, id)
  {
    found := None;
    var i := 0;
    while i < |fs|
      invariant 0 <= i <= |fs|
      invariant FirstFeedback(fs, id) == FirstFeedback(fs[i..], id)
    {
      assert fs[i..][1..] == fs[i + 1..];
      if fs[i].id == Some(id) {
        found := Some(fs[i]);
        return;
      }
      i := i + 1;
    }
  }

  // ---------------------------------------------------------------------------------------------
  // Predicted outcomes, risk and deployment status

  /** `predicted_outcomes`: the keys the agent writes; a reply's own outcomes may have any of them. */
  datatype Outcomes = Outcomes(responseRate: Option<real>, renewalRate: Option<real>,
                               attendanceRate: Option<real>, conversionRate: Option<real>,
                               customerSatisfaction: Option<real>, patientSatisfaction: Option<real>,
                               engagement: Option<real>, complianceRisk: Option<Label>)

  function Min(x: real, y: real): real {
    if x <= y then x else y
  }

  /** The response-rate ceiling of a scenario. */
  function ResponseCap(scenario: string): real {
    if scenario == "insurance_renewal" then 0.25
    else if scenario == "healthcare_reminder" then 0.4
    else if scenario == "ecommerce_promotion" then 0.2
    else 0.15
  }

  /** The risk level of the message's compliance analysis, `MEDIUM` when it or its level is missing. */
  function RiskIn(c: Option<AnalysisView>): Risk {
    if c.Some? then c.value.risk.GetOr(Medium) else Medium
  }

  /** The response rate per action point of a scenario. */
  function ResponseFactor(scenario: string): real {
    if scenario == "insurance_renewal" then 0.3
    else if scenario == "healthcare_reminder" then 0.5
    else if scenario == "ecommerce_promotion" then 0.25
    else 0.2
  }

  /** The message's sentiment score, 5 when its feedback or the score is missing. */
  function SentimentOf(f: Option<FeedbackEntry>): real {
    if f.Some? then f.value.sentiment.GetOr(5.0) else 5.0
  }

  /** The message's action likelihood, 5 when its feedback or the score is missing. */
  function ActionOf(f: Option<FeedbackEntry>): real {
    if f.Some? then f.value.action.GetOr(5.0) else 5.0
  }

  /** `_predict_performance_outcomes` from the message's compliance analysis and feedback entry. The
      response rate is the smaller of the scenario's ceiling and the action score times its factor; each
      scenario fills in exactly its own outcome keys. */
  function Predict(c: Option<AnalysisView>, f: Option<FeedbackEntry>, scenario: string): (o: Outcomes)
    ensures o.responseRate.Some?
    ensures o.responseRate.value <= ResponseCap(scenario)
    ensures o.responseRate.value <= ActionOf(f) / 10.0 * ResponseFactor(scenario)
    ensures o.responseRate.value == ResponseCap(scenario)
            || o.responseRate.value == ActionOf(f) / 10.0 * ResponseFactor(scenario)
    ensures o.complianceRisk == Some(Level(RiskIn(c)))
    ensures o.renewalRate.Some? <==> scenario == "insurance_renewal"
    ensures o.customerSatisfaction.Some? <==> scenario == "insurance_renewal"
    ensures o.attendanceRate.Some? <==> scenario == "healthcare_reminder"
    ensures o.patientSatisfaction.Some? <==> scenario == "healthcare_reminder"
    ensures o.conversionRate.Some? <==> scenario == "ecommerce_promotion"
    ensures o.engagement.Some? <==> scenario != "insurance_renewal" && scenario != "healthcare_reminder"
    ensures o.renewalRate.Some? ==> o.renewalRate.value == 0.75 * (0.8 + SentimentOf(f) / 10.0 * 0.2)
    ensures o.attendanceRate.Some? ==> o.attendanceRate.value == 0.8 * (0.9 + SentimentOf(f) / 10.0 * 0.1)
    ensures o.conversionRate.Some? ==> o.conversionRate.value == o.responseRate.value * (SentimentOf(f) / 10.0) * 0.6
    ensures o.customerSatisfaction.Some? ==> o.customerSatisfaction.value == SentimentOf(f)
    ensures o.patientSatisfaction.Some? ==> o.patientSatisfaction.value == SentimentOf(f)
    ensures o.engagement.Some? ==> o.engagement.value == SentimentOf(f)
  {
    var s := SentimentOf(f) / 10.0;
    var a := ActionOf(f) / 10.0;
    var risk := Some(Level(RiskIn(c)));
    if scenario == "insurance_renewal" then
      Outcomes(Some(Min(0.25, a * 0.3)), Some(0.75 * (0.8 + s * 0.2)), None, None, Some(s * 10.0), None, None, risk)
    else if scenario == "healthcare_reminder" then
      Outcomes(Some(Min(0.4, a * 0.5)), None, Some(0.8 * (0.9 + s * 0.1)), None, None, Some(s * 10.0), None, risk)
    else if scenario == "ecommerce_promotion" then
      var rate := Min(0.2, a * 0.25);
      Outcomes(Some(rate), None, None, Some(rate * s * 0.6), None, None, Some(s * 10.0), risk)
    else
      Outcomes(Some(Min(0.15, a * 0.2)), None, None, None, None, None, Some(s * 10.0), risk)
  }

  /** With feedback scores in [0, 10], the predicted rates lie in fixed ranges: the response rate in
      [0, ceiling], renewal in [0.6, 0.75], attendance in [0.72, 0.8] and conversion in [0, 0.12]. */
  lemma PredictWithin(c: Option<AnalysisView>, f: Option<FeedbackEntry>, scenario: string)
    requires 0.0 <= SentimentOf(f) <= 10.0 && 0.0 <= ActionOf(f) <= 10.0
    ensures 0.0 <= Predict(c, f, scenario).responseRate.value <= ResponseCap(scenario)
    ensures Predict(c, f, scenario).renewalRate.Some? ==> 0.6 <= Predict(c, f, scenario).renewalRate.value <= 0.75
    ensures Predict(c, f, scenario).attendanceRate.Some? ==> 0.72 <= Predict(c, f, scenario).attendanceRate.value <= 0.8
    ensures Predict(c, f, scenario).conversionRate.Some? ==> 0.0 <= Predict(c, f, scenario).conversionRate.value <= 0.12
  {
    var o := Predict(c, f, scenario);
    var s := SentimentOf(f) / 10.0;
    assert 0.0 <= s <= 1.0;
    assert 0.0 <= ActionOf(f) / 10.0 * ResponseFactor(scenario);
    if o.conversionRate.Some? {
      var rate := o.responseRate.value;
      assert 0.0 <= rate <= 0.2;
      assert rate * s <= 0.2 by { assert rate * s <= rate * 1.0; }
      assert 0.0 <= rate * s;
    }
  }

  /** `_assess_overall_risk` from the message's compliance analysis: a missing analysis counts as level
      `MEDIUM`, score 70 and no violations. */
  function Assess(c: Option<AnalysisView>): (r: Risk)
    ensures c.None? ==> r == Medium
    ensures c.Some? ==>
              (r == High <==> c.value.risk == Some(High) || c.value.score.GetOr(70.0) < 60.0
                              || c.value.violations.GetOr(0) > 2)
    ensures c.Some? ==>
              (r == Low <==> c.value.risk == Some(Low) && c.value.score.GetOr(70.0) >= 80.0
                             && c.value.violations.GetOr(0) == 0)
  {
    match c
    case None => Medium
    case Some(m) =>
      var level := m.risk.GetOr(Medium);
      var score := m.score.GetOr(70.0);
      var violations := m.violations.GetOr(0);
      if level == High || score < 60.0 || violations > 2 then High
      else if level == Medium || score < 80.0 || violations > 0 then Medium
      else
        assert level == Low;
        Low
  }

  datatype Status = ImmediateDeployment | DeployWithMonitoring | RequiresReview

  /** `deployment_status` from the risk, the reply's confidence and the predicted compliance risk. A label
      other than the three levels is compared as text, so it never equals `LOW` or `MEDIUM`. */
  function DeploymentStatus(risk: Label, confidence: real, complianceRisk: Label): (st: Status)
    ensures st == ImmediateDeployment <==>
              risk == Level(Low) && confidence >= 0.8 && complianceRisk == Level(Low)
    ensures st == DeployWithMonitoring <==>
              && !(risk == Level(Low) && confidence >= 0.8 && complianceRisk == Level(Low))
              && (risk == Level(Medium) || confidence >= 0.6)
  {
    if risk == Level(Low) && confidence >= 0.8 && complianceRisk == Level(Low) then ImmediateDeployment
    else if risk == Level(Medium) || confidence >= 0.6 then DeployWithMonitoring
    else RequiresReview
  }

  // ---------------------------------------------------------------------------------------------
  // Enhancing the model's decision

  /** A `ranking` the reply supplied (whose entries the agent never reads) or the computed one. */
  datatype RankingField = Given(size: nat) | Computed(entries: seq<Scored>) {
    function Size(): nat {
      match this
      case Given(n) => n
      case Computed(es) => |es|
    }
  }

  /** The reply's decision object: the keys the agent reads. */
  datatype DecisionIn = DecisionIn(recommended: Option<int>, confidence: Option<real>,
                                   ranking: Option<RankingField>, predicted: Option<Outcomes>, risk: Option<Label>)

  /** The decision after `_enhance_decision_analysis`: ranking, outcomes and risk are always there. */
  datatype Decision = Decision(recommended: Option<int>, confidence: Option<real>, ranking: RankingField,
                               predicted: Outcomes, risk: Label)

  /** The message the reply recommends, 1 when it names none. */
  function RecommendedId(d: DecisionIn): int {
    d.recommended.GetOr(1)
  }

  /** Calling `.get` on the list `message_analyses` (line 214) and on the list `ranking` (line 516) raises
      this error. */
  const NoGetOnList := "'list' object has no attribute 'get'"

  /** The decision `_enhance_decision_analysis` returns when it does not raise: missing parts are
      computed for the recommended message, present ones are kept. */
  function Enhanced(d: DecisionIn, analyses: seq<Analysis>, fs: seq<FeedbackEntry>, scenario: string): Decision {
    var id := RecommendedId(d);
    var c := FirstAnalysis(analyses, id);
    Decision(d.recommended, d.confidence,
             if d.ranking.Some? then d.ranking.value else Computed(RankingOf(analyses, fs, scenario)),
             if d.predicted.Some? then d.predicted.value else Predict(c, FirstFeedback(fs, id), scenario),
             if d.risk.Some? then d.risk.value else Level(Assess(c)))
  }

  /** `_enhance_decision_analysis`. When the analyses are not empty and none carries the recommended id,
      the fallback to the first message calls `.get` on the list and raises. */
  method EnhanceDecision(d: DecisionIn, analyses: seq<Analysis>, fs: seq<FeedbackEntry>, scenario: string)
    returns (r: Result<Decision, string>)
    ensures r.Failure? <==> analyses != [] && FirstAnalysis(analyses, RecommendedId(d)).None?
    ensures r.Failure? ==> r.error == NoGetOnList
    ensures r.Success? ==> r.value == Enhanced(d, analyses, fs, scenario)
  {
    var id := RecommendedId(d);
    var c := FindAnalysis(analyses, id);
    if analyses != [] && c.None? {
      return Failure(NoGetOnList);
    }
    var ranking: RankingField;
    if d.ranking.Some? {
      ranking := d.ranking.value;
    } else {
      var computed := CalculateRanking(analyses, fs, scenario);
      ranking := Computed(computed);
    }
    var predicted: Outcomes;
    if d.predicted.Some? {
      predicted := d.predicted.value;
    } else {
      var f := FindFeedback(fs, id);
      predicted := Predict(c, f, scenario);
    }
    var risk := if d.risk.Some? then d.risk.value else Level(Assess(c));
    r := Success(Decision(d.recommended, d.confidence, ranking, predicted, risk));
  }

  /** A recommended message that the analyses do carry is the one the prediction and the risk are about. */
  lemma EnhancedIsAboutRecommended(d: DecisionIn, analyses: seq<Analysis>, fs: seq<FeedbackEntry>, scenario: string)
    requires FirstAnalysis(analyses, RecommendedId(d)).Some?
    requires d.risk.None?
    ensures exists k :: 0 <= k < |analyses| && analyses[k].Some? && analyses[k].value.id == Some(RecommendedId(d))
                        && Enhanced(d, analyses, fs, scenario).risk == Level(Assess(analyses[k]))
  {
    FirstAnalysisSpec(analyses, RecommendedId(d));
  }

  // ---------------------------------------------------------------------------------------------
  // Decision confidence

  /** Which earlier results are present with `success` true. */
  datatype Sources = Sources(copywriter: bool, compliance: bool, feedback: bool)

  function Indicator(b: bool): real {
    if b then 1.0 else 0.0
  }

  /** The data-quality factor: the fraction of the three earlier agents that succeeded. */
  function DataQuality(src: Sources): (q: real)
    ensures 0.0 <= q <= 1.0
    ensures q == 1.0 <==> src.copywriter && src.compliance && src.feedback
    ensures q == 0.0 <==> !src.copywriter && !src.compliance && !src.feedback
  {
    (Indicator(src.compliance) + Indicator(src.feedback) + Indicator(src.copywriter)) / 3.0
  }

  /** `1.0 if LOW else (0.7 if MEDIUM else 0.3)`: any label other than the two counts as `HIGH`. */
  function RiskFactor(r: Label): real {
    if r == Level(Low) then 1.0 else if r == Level(Medium) then 0.7 else 0.3
  }

  /** The mean of the four factors of the reachable branch: data quality, the fixed 0.5 consistency,
      the risk factor and the reply's confidence (0.5 when absent). */
  function ConfidenceOf(src: Sources, risk: Label, llm: real): (c: real)
    ensures 0.0 <= llm <= 1.0 ==> 0.2 <= c <= 0.875
  {
    (DataQuality(src) + 0.5 + RiskFactor(risk) + llm) / 4.0
  }

  /** A lower risk level strictly raises the confidence, and a label other than the three levels weighs
      exactly like `HIGH`. */
  lemma ConfidenceFollowsRisk(src: Sources, llm: real, other: string)
    ensures ConfidenceOf(src, Level(High), llm) < ConfidenceOf(src, Level(Medium), llm) < ConfidenceOf(src, Level(Low), llm)
    ensures ConfidenceOf(src, Other(other), llm) == ConfidenceOf(src, Level(High), llm)
  {
  }

  /** `_calculate_decision_confidence`. With two or more ranking entries, lines 516-517 call `.get` on
      the ranking list and raise. */
  method DecisionConfidence(d: Decision, src: Sources) returns (r: Result<real, string>)
    ensures r.Failure? <==> d.ranking.Size() >= 2
    ensures r.Failure? ==> r.error == NoGetOnList
    ensures r.Success? ==> r.value == ConfidenceOf(src, d.risk, d.confidence.GetOr(0.5))
  {
    var factors := [DataQuality(src)];
    if d.ranking.Size() >= 2 {
      return Failure(NoGetOnList);
    }
    factors := factors + [0.5];
    factors := factors + [RiskFactor(d.risk)];
    factors := factors + [d.confidence.GetOr(0.5)];
    r := Success((factors[0] + factors[1] + factors[2] + factors[3]) / |factors| as real);
  }

  // ---------------------------------------------------------------------------------------------
  // The fallback decision

  /** A message the fallback scores: `0.6 * compliance + 0.4 * (10 * sentiment)`. */
  datatype Candidate = Candidate(id: int, composite: real, compliance: real, sentiment: real)

  /** The fallback's candidate for one analysis; its id defaults to 1, the compliance score to 0 and the
      sentiment to 5. */
  function CandidateOf(m: AnalysisView, fs: seq<FeedbackEntry>): (c: Candidate)
    ensures c.id == m.id.GetOr(1) && c.compliance == m.score.GetOr(0.0)
    ensures c.composite == 0.6 * c.compliance + 0.4 * c.sentiment
    ensures LastFor(fs, c.id).None? ==> c.sentiment == 50.0
  {
    var id := m.id.GetOr(1);
    var f := LastFor(fs, id);
    var s := (if f.Some? then f.value.sentiment.GetOr(5.0) else 5.0) * 10.0;
    var c := m.score.GetOr(0.0);
    Candidate(id, c * 0.6 + s * 0.4, c, s)
  }

  /** The fallback's candidates: one per non-empty analysis, in order. */
  function Candidates(analyses: seq<Analysis>, fs: seq<FeedbackEntry>): (cs: seq<Candidate>)
    ensures |cs| == |Present(analyses)|
    decreases |analyses|
  {
    if analyses == [] then []
    else
      var last := analyses[|analyses| - 1];
      Candidates(analyses[..|analyses| - 1], fs) + (if last.Some? then [CandidateOf(last.value, fs)] else [])
  }

  function Composites(cs: seq<Candidate>): (keys: seq<real>)
    ensures |keys| == |cs|
    ensures forall i :: 0 <= i < |cs| ==> keys[i] == cs[i].composite
  {
    seq(|cs|, i requires 0 <= i < |cs| => cs[i].composite)
  }

  /** The scoring loop of `_fallback_decision_analysis`. */
  method ScoreCandidates(analyses: seq<Analysis>, lookup: map<int, FeedbackEntry>, ghost fs: seq<FeedbackEntry>)
    returns (cs: seq<Candidate>)
    requires forall id :: Lookup(lookup, id) == LastFor(fs, id)
    ensures cs == Candidates(analyses, fs)
  {
    cs := [];
    for i := 0 to |analyses|
      invariant cs == Candidates(analyses[..i], fs)
    {
      assert analyses[..i + 1][..i] == analyses[..i];
      if analyses[i].Some? {
        var m := analyses[i].value;
        var id := m.id.GetOr(1);
        var f := Lookup(lookup, id);
        var s := (if f.Some? then f.value.sentiment.GetOr(5.0) else 5.0) * 10.0;
        var c := m.score.GetOr(0.0);
        cs := cs + [Candidate(id, c * 0.6 + s * 0.4, c, s)];
      }
    }
    assert analyses[..|analyses|] == analyses;
  }

  /** The fallback's choice: the first candidate with the highest composite score, or message 1 with
      score 70 when there is none. */
  function Choice(cs: seq<Candidate>): (r: (int, real))
    ensures cs == [] ==> r == (1, 70.0)
    ensures cs != [] ==> exists i :: 0 <= i < |cs| && r == (cs[i].id, cs[i].composite)
                                     && (forall j :: 0 <= j < |cs| ==> cs[j].composite <= cs[i].composite)
                                     && (forall j :: 0 <= j < i ==> cs[j].composite < cs[i].composite)
  {
    if cs == [] then (1, 70.0)
    else
      var i := FirstMax(Composites(cs));
      (cs[i].id, cs[i].composite)
  }

  // ---------------------------------------------------------------------------------------------
  // Processing the reply

  /** The reply once parsed: an object, or some other JSON value. */
  datatype Reply = Object(decision: DecisionIn) | NotObject

  /** `json.JSONDecodeError`. */
  datatype ParseError = ParseError

  /** The agent's `data` payload. The fallback's confidence (0.6), response rate (0.08) and risks
      (`MEDIUM`) are fixed; the error record's id (1) and confidence (0.3) too. */
  datatype Output =
    | Decided(decision: Decision, status: Status, confidence: real, scenario: string, weights: Weights)
    | FallbackChosen(recommended: int, confidence: real, composite: real, responseRate: real,
                     complianceRisk: Risk, risk: Risk, scenario: string)
    | Failed(recommended: int, confidence: real, error: string, scenario: string)

  const ErrorPrefix := "Failed to process decision analysis: "
  const InvalidFormatError := "Invalid decision response format"

  /** `_fallback_decision_analysis`. */
  method FallbackDecision(analyses: seq<Analysis>, fs: seq<FeedbackEntry>, scenario: string) returns (out: Output)
    ensures out.FallbackChosen? && out.scenario == scenario
    ensures (out.recommended, out.composite) == Choice(Candidates(analyses, fs))
    ensures out.confidence == 0.6 && out.responseRate == 0.08
    ensures out.complianceRisk == Medium && out.risk == Medium
  {
    var lookup := BuildLookup(fs);
    var cs := ScoreCandidates(analyses, lookup, fs);
    var best := Choice(cs);
    out := FallbackChosen(best.0, 0.6, best.1, 0.08, Medium, Medium, scenario);
  }

  /** `_process_llm_response`: a reply that is not JSON goes to the fallback; any error raised on the way,
      including the two `.get` calls on lists, yields the error record. */
  method ProcessReply(parsed: Result<Reply, ParseError>, analyses: seq<Analysis>, fs: seq<FeedbackEntry>,
                      src: Sources, scenario: string)
    returns (out: Output)
    ensures parsed.Failure? ==>
              && out.FallbackChosen? && out.scenario == scenario
              && (out.recommended, out.composite) == Choice(Candidates(analyses, fs))
              && out.confidence == 0.6 && out.responseRate == 0.08
              && out.complianceRisk == Medium && out.risk == Medium
    ensures parsed.Success? && parsed.value.NotObject? ==>
              out == Failed(1, 0.3, ErrorPrefix + InvalidFormatError, scenario)
    ensures parsed.Success? && parsed.value.Object? ==>
              var d := parsed.value.decision;
              if analyses != [] && FirstAnalysis(analyses, RecommendedId(d)).None? then
                out == Failed(1, 0.3, ErrorPrefix + NoGetOnList, scenario)
              else
                var e := Enhanced(d, analyses, fs, scenario);
                if e.ranking.Size() >= 2 then out == Failed(1, 0.3, ErrorPrefix + NoGetOnList, scenario)
                else out == Decided(e, DeploymentStatus(e.risk, e.confidence.GetOr(0.5), e.predicted.complianceRisk.GetOr(Level(Medium))),
                                    ConfidenceOf(src, e.risk, e.confidence.GetOr(0.5)), scenario, WeightsFor(scenario))
  {
    match parsed {
      case Failure(_) =>
        out := FallbackDecision(analyses, fs, scenario);
      case Success(NotObject) =>
        out := Failed(1, 0.3, ErrorPrefix + InvalidFormatError, scenario);
      case Success(Object(d)) =>
        var e := EnhanceDecision(d, analyses, fs, scenario);
        if e.Failure? {
          out := Failed(1, 0.3, ErrorPrefix + e.error, scenario);
          return;
        }
        var decision := e.value;
        var status := DeploymentStatus(decision.risk, decision.confidence.GetOr(0.5),
                                       decision.predicted.complianceRisk.GetOr(Level(Medium)));
        var confidence := DecisionConfidence(decision, src);
        if confidence.Failure? {
          out := Failed(1, 0.3, ErrorPrefix + confidence.error, scenario);
          return;
        }
        out := Decided(decision, status, confidence.value, scenario, WeightsFor(scenario));
    }
  }

  /** Without a ranking in the reply, two or more non-empty analyses always end in the error record: the
      decision only comes through when the ranking has fewer than two entries. */
  lemma TwoAnalysesAlwaysFail(d: DecisionIn, analyses: seq<Analysis>, fs: seq<FeedbackEntry>, scenario: string)
    requires d.ranking.None? && |Present(analyses)| >= 2
    ensures Enhanced(d, analyses, fs, scenario).ranking.Size() >= 2
  {
    RankingSpec(analyses, fs, scenario);
  }
}
