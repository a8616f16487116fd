/** The feedback agent's post-processing: the demographic profile choice, the summary statistics added to
    the model's feedback, the behavioural insights, the confidence level and the heuristic fallback. */
module Feedback {
  import opened Wrappers
  import opened Text
  import opened Shared

  /** The four demographic models. */
  datatype Demographic = Age40Plus | Millennials | BusinessCustomers | HealthcarePatients

  /** One entry of `message_feedback`; scores may be absent. */
  datatype FeedbackEntry = FeedbackEntry(id: Option<int>, sentiment: Option<real>, clarity: Option<real>,
                                         action: Option<real>, hasComments: bool)

  /** `feedback_summary`: the keys the agent reads or writes. `topMessage` is `Some(None)` when the top entry
      has no id. */
  datatype Summary = Summary(avgSentiment: Option<real>, avgClarity: Option<real>, avgAction: Option<real>,
                             sentimentRange: Option<real>, topMessage: Option<Option<int>>,
                             predictedResponseRate: Option<real>, renewalRate: Option<real>,
                             appointmentRate: Option<real>, conversionRate: Option<real>,
                             keyInsights: Option<seq<string>>)

  /** The model's reply as a feedback object (`enhanced` is `analysis_depth: "enhanced"`). */
  datatype FeedbackData = FeedbackData(summary: Option<Summary>, feedback: Option<seq<FeedbackEntry>>, enhanced: bool)

  /** The reply once parsed: an object, or some other JSON value. */
  datatype Reply = Object(data: FeedbackData) | NotObject

  /** `json.JSONDecodeError`. */
  datatype ParseError = ParseError

  /** The agent's `data` payload. */
  datatype Output =
    | Analysed(data: FeedbackData, insights: seq<Insight>, scenario: string, confidence: real)
    | FallbackScored(summary: Summary, entries: seq<FeedbackEntry>, scenario: string)
    | Failed(summary: Summary, error: string, scenario: string)

  const InvalidFormatError := "Failed to process feedback analysis: Invalid feedback response format"
  const DefaultScore := 5.0
  const EmptySummary := Summary(None, None, None, None, None, None, None, None, None, None)
  /** The error record's summary: a neutral sentiment and a 5% response rate. */
  const ErrorSummary := EmptySummary.(avgSentiment := Some(5.0), predictedResponseRate := Some(0.05))
  const FallbackInsight := "Fallback analysis applied - limited insights available"

  /** The fallback's summary: the average sentiment, a conservative 8% response rate and one fixed insight. */
  function FallbackSummary(avg: real): Summary {
    EmptySummary.(avgSentiment := Some(avg), predictedResponseRate := Some(0.08), keyInsights := Some([FallbackInsight]))
  }

  /** `_map_to_demographic_model`, with the prompt builder's defaults for a missing audience or age group. */
  function DemographicFor(audience: Option<string>, ageGroup: Option<string>, scenario: string): (d: Demographic)
    ensures var age := ageGroup.GetOr("all ages"); var aud := Lower(audience.GetOr("general customers"));
      && (d == Age40Plus <==> Contains(age, "40") || Contains(Lower(age), "above 40"))
      && (d == BusinessCustomers <==> d != Age40Plus && (Contains(aud, "business") || Contains(aud, "corporate")))
      && (d == HealthcarePatients <==>
            d != Age40Plus && d != BusinessCustomers && (Contains(scenario, "health") || Contains(aud, "patient")))
  {
    var age := ageGroup.GetOr("all ages");
    var aud := Lower(audience.GetOr("general customers"));
    if Contains(age, "40") || Contains(Lower(age), "above 40") then Age40Plus
    else if Contains(aud, "business") || Contains(aud, "corporate") then BusinessCustomers
    else if Contains(scenario, "health") || Contains(aud, "patient") then HealthcarePatients
    else Millennials
  }

  function Sentiments(fs: seq<FeedbackEntry>, default: real): (xs: seq<real>)
    ensures |xs| == |fs| && forall i :: 0 <= i < |fs| ==> xs[i] == fs[i].sentiment.GetOr(default)
  {
    seq(|fs|, i requires 0 <= i < |fs| => fs[i].sentiment.GetOr(default))
  }

  function Clarities(fs: seq<FeedbackEntry>): (xs: seq<real>)
    ensures |xs| == |fs| && forall i :: 0 <= i < |fs| ==> xs[i] == fs[i].clarity.GetOr(DefaultScore)
  {
    seq(|fs|, i requires 0 <= i < |fs| => fs[i].clarity.GetOr(DefaultScore))
  }

  function Actions(fs: seq<FeedbackEntry>): (xs: seq<real>)
    ensures |xs| == |fs| && forall i :: 0 <= i < |fs| ==> xs[i] == fs[i].action.GetOr(DefaultScore)
  {
    seq(|fs|, i requires 0 <= i < |fs| => fs[i].action.GetOr(DefaultScore))
  }

  /** The statistics `_enhance_feedback_analysis` writes over the model's summary: the three means (absent
      scores count as 5), the sentiment range, and the id of the first entry with the highest sentiment
      (absent counts as 0); every other key keeps the model's value. */
  function Statistics(base: Summary, fs: seq<FeedbackEntry>): (s: Summary)
    requires fs != []
    ensures s.avgSentiment == Some(Mean(Sentiments(fs, DefaultScore)))
    ensures s.avgClarity == Some(Mean(Clarities(fs))) && s.avgAction == Some(Mean(Actions(fs)))
    ensures s.sentimentRange == Some(MaxOf(Sentiments(fs, DefaultScore)) - MinOf(Sentiments(fs, DefaultScore)))
    ensures s.sentimentRange.value >= 0.0
    ensures var k := FirstMax(Sentiments(fs, 0.0));
      && s.topMessage == Some(fs[k].id)
      && (forall j :: 0 <= j < |fs| ==> fs[j].sentiment.GetOr(0.0) <= fs[k].sentiment.GetOr(0.0))
      && (forall j :: 0 <= j < k ==> fs[j].sentiment.GetOr(0.0) < fs[k].sentiment.GetOr(0.0))
    ensures s.predictedResponseRate == base.predictedResponseRate
    ensures s.renewalRate == base.renewalRate && s.appointmentRate == base.appointmentRate
    ensures s.conversionRate == base.conversionRate && s.keyInsights == base.keyInsights
  {
    var sentiments := Sentiments(fs, DefaultScore);
    assert MinOf(sentiments) <= sentiments[0] <= MaxOf(sentiments);
    base.(avgSentiment := Some(Mean(sentiments)), avgClarity := Some(Mean(Clarities(fs))),
          avgAction := Some(Mean(Actions(fs))), sentimentRange := Some(MaxOf(sentiments) - MinOf(sentiments)),
          topMessage := Some(fs[FirstMax(Sentiments(fs, 0.0))].id))
  }

  /** The scenario's derived rate, from the mean action likelihood: renewal (x 0.8) for insurance_renewal,
      appointment (x 0.7) for healthcare_reminder, conversion (x 0.15) for ecommerce_promotion, none otherwise. */
  function WithDerivedRate(s: Summary, scenario: string): (r: Summary)
    requires s.avgAction.Some?
    ensures r.renewalRate == if scenario == "insurance_renewal" then Some(s.avgAction.value / 10.0 * 0.8) else s.renewalRate
    ensures r.appointmentRate ==
              if scenario == "healthcare_reminder" then Some(s.avgAction.value / 10.0 * 0.7) else s.appointmentRate
    ensures r.conversionRate ==
              if scenario == "ecommerce_promotion" then Some(s.avgAction.value / 10.0 * 0.15) else s.conversionRate
    ensures r.(renewalRate := s.renewalRate, appointmentRate := s.appointmentRate, conversionRate := s.conversionRate) == s
  {
    var x := s.avgAction.value;
    if scenario == "insurance_renewal" then s.(renewalRate := Some(x / 10.0 * 0.8))
    else if scenario == "healthcare_reminder" then s.(appointmentRate := Some(x / 10.0 * 0.7))
    else if scenario == "ecommerce_promotion" then s.(conversionRate := Some(x / 10.0 * 0.15))
    else s
  }

  /** `_enhance_feedback_analysis`: with no feedback entries the data is returned as it is; otherwise the
      entries are kept and the summary gets the statistics and the derived rate. */
  function Enhance(d: FeedbackData, scenario: string): (r: FeedbackData)
    ensures d.feedback.GetOr([]) == [] ==> r == d
    ensures d.feedback.GetOr([]) != [] ==>
              && r.feedback == d.feedback && r.enhanced
              && r.summary == Some(WithDerivedRate(Statistics(d.summary.GetOr(EmptySummary), d.feedback.value), scenario))
  {
    var fs := d.feedback.GetOr([]);
    if fs == [] then d
    else FeedbackData(Some(WithDerivedRate(Statistics(d.summary.GetOr(EmptySummary), fs), scenario)), d.feedback, true)
  }

  /** The average sentiment the enhancement reports lies between the lowest and the highest score, and so
      within whatever range all the scores share. */
  lemma EnhancedSentimentWithin(d: FeedbackData, scenario: string, lo: real, hi: real)
    requires d.feedback.GetOr([]) != []
    requires forall i :: 0 <= i < |d.feedback.value| ==> lo <= d.feedback.value[i].sentiment.GetOr(DefaultScore) <= hi
    ensures var s := Enhance(d, scenario).summary.value;
      lo <= s.avgSentiment.value <= hi && s.sentimentRange.value <= hi - lo
  {
    var xs := Sentiments(d.feedback.value, DefaultScore);
    MeanWithin(xs);
    MaxAtMost(xs, hi);
    MinAtLeast(xs, lo);
  }

  /** The insight lines. */
  datatype Insight =
    | HighResonance | LowAppeal | ClarityConcerns | ExcellentClarity | StrongAction | WeakAction
    | WeakDrivers | LowUrgency | HighVariance
  {
    /** The line as the agent writes it. */
    function Text(): string {
      match this
      case HighResonance => "High emotional resonance - messages strongly connect with audience"
      case LowAppeal => "Low emotional appeal - consider more engaging or relevant messaging"
      case ClarityConcerns => "Clarity concerns - simplify language and structure"
      case ExcellentClarity => "Excellent clarity - messages are easy to understand"
      case StrongAction => "Strong call-to-action effectiveness - high motivation to act"
      case WeakAction => "Weak action motivation - strengthen value proposition or urgency"
      case WeakDrivers => "Good emotional connection but weak action drivers - add clearer next steps"
      case LowUrgency => "Clear communication but low urgency - emphasize health importance"
      case HighVariance => "High message performance variance - focus on top-performing elements"
    }
  }

  const MaxInsights: nat := 5

  /** The variance test of `_generate_behavioral_insights`: sentiment scores (absent counts as 5) spread by
      more than 3. */
  predicate HighSpread(fs: seq<FeedbackEntry>) {
    fs != [] && MaxOf(Sentiments(fs, DefaultScore)) - MinOf(Sentiments(fs, DefaultScore)) > 3.0
  }

  /** A line that is there only under a condition. */
  function LineIf(condition: bool, line: Insight): (ls: seq<Insight>)
    ensures ls == [] || ls == [line]
    ensures line in ls <==> condition
  {
    if condition then [line] else []
  }

  function SentimentLines(sentiment: real): seq<Insight> {
    if sentiment >= 8.0 then [HighResonance] else LineIf(sentiment <= 4.0, LowAppeal)
  }

  function ClarityLines(clarity: real): seq<Insight> {
    if clarity <= 5.0 then [ClarityConcerns] else LineIf(clarity >= 8.0, ExcellentClarity)
  }

  function ActionLines(action: real): seq<Insight> {
    if action >= 7.0 then [StrongAction] else LineIf(action <= 4.0, WeakAction)
  }

  function ScenarioLines(scenario: string, sentiment: real, clarity: real, action: real): seq<Insight> {
    if scenario == "insurance_renewal" then LineIf(sentiment > action, WeakDrivers)
    else LineIf(scenario == "healthcare_reminder" && clarity > action, LowUrgency)
  }

  /** The lines `_generate_behavioral_insights` collects, in order, before cutting to five. */
  function InsightLines(sentiment: real, clarity: real, action: real, scenario: string, spread: bool): (ls: seq<Insight>)
    ensures |ls| <= MaxInsights
  {
    SentimentLines(sentiment) + ClarityLines(clarity) + ActionLines(action)
    + ScenarioLines(scenario, sentiment, clarity, action) + LineIf(spread, HighVariance)
  }

  lemma SentimentLinesSpec(x: real)
    ensures HighResonance in SentimentLines(x) <==> x >= 8.0
    ensures LowAppeal in SentimentLines(x) <==> x <= 4.0
    ensures forall i :: i in SentimentLines(x) ==> i == HighResonance || i == LowAppeal
  {
  }

  lemma ClarityLinesSpec(x: real)
    ensures ClarityConcerns in ClarityLines(x) <==> x <= 5.0
    ensures ExcellentClarity in ClarityLines(x) <==> x >= 8.0
    ensures forall i :: i in ClarityLines(x) ==> i == ClarityConcerns || i == ExcellentClarity
  {
  }

  lemma ActionLinesSpec(x: real)
    ensures StrongAction in ActionLines(x) <==> x >= 7.0
    ensures WeakAction in ActionLines(x) <==> x <= 4.0
    ensures forall i :: i in ActionLines(x) ==> i == StrongAction || i == WeakAction
  {
  }

  lemma ScenarioLinesSpec(scenario: string, sentiment: real, clarity: real, action: real)
    ensures WeakDrivers in ScenarioLines(scenario, sentiment, clarity, action) <==>
              scenario == "insurance_renewal" && sentiment > action
    ensures LowUrgency in ScenarioLines(scenario, sentiment, clarity, action) <==>
              scenario == "healthcare_reminder" && clarity > action
    ensures forall i :: i in ScenarioLines(scenario, sentiment, clarity, action) ==> i == WeakDrivers || i == LowUrgency
  {
  }

  lemma InConcat(a: seq<Insight>, b: seq<Insight>, c: seq<Insight>, d: seq<Insight>, e: seq<Insight>, x: Insight)
    ensures x in a + b + c + d + e <==> x in a || x in b || x in c || x in d || x in e
  {
  }

  /** Each insight line is present exactly when its threshold is met. */
  lemma InsightLinesSpec(sentiment: real, clarity: real, action: real, scenario: string, spread: bool)
    ensures var ls := InsightLines(sentiment, clarity, action, scenario, spread);
      && (HighResonance in ls <==> sentiment >= 8.0)
      && (LowAppeal in ls <==> sentiment <= 4.0)
      && (ClarityConcerns in ls <==> clarity <= 5.0)
      && (ExcellentClarity in ls <==> clarity >= 8.0)
      && (StrongAction in ls <==> action >= 7.0)
      && (WeakAction in ls <==> action <= 4.0)
      && (WeakDrivers in ls <==> scenario == "insurance_renewal" && sentiment > action)
      && (LowUrgency in ls <==> scenario == "healthcare_reminder" && clarity > action)
      && (HighVariance in ls <==> spread)
  {
    var a, b, c := SentimentLines(sentiment), ClarityLines(clarity), ActionLines(action);
    var d, e := ScenarioLines(scenario, sentiment, clarity, action), LineIf(spread, HighVariance);
    SentimentLinesSpec(sentiment);
    ClarityLinesSpec(clarity);
    ActionLinesSpec(action);
    ScenarioLinesSpec(scenario, sentiment, clarity, action);
    InConcat(a, b, c, d, e, HighResonance);
    InConcat(a, b, c, d, e, LowAppeal);
    InConcat(a, b, c, d, e, ClarityConcerns);
    InConcat(a, b, c, d, e, ExcellentClarity);
    InConcat(a, b, c, d, e, StrongAction);
    InConcat(a, b, c, d, e, WeakAction);
    InConcat(a, b, c, d, e, WeakDrivers);
    InConcat(a, b, c, d, e, LowUrgency);
    InConcat(a, b, c, d, e, HighVariance);
  }

  /** The insights for a feedback object: its summary's averages (5 when absent) and the spread of its
      entries' sentiment scores decide the lines. */
  function InsightsFor(d: FeedbackData, scenario: string): (ls: seq<Insight>)
    ensures |ls| <= MaxInsights
  {
    var s := d.summary.GetOr(EmptySummary);
    InsightLines(s.avgSentiment.GetOr(DefaultScore), s.avgClarity.GetOr(DefaultScore), s.avgAction.GetOr(DefaultScore),
                 scenario, HighSpread(d.feedback.GetOr([])))
  }

  /** The first three blocks of `_generate_behavioral_insights`: the sentiment, clarity and action lines. */
  method ThresholdInsights(sentiment: real, clarity: real, action: real) returns (insights: seq<Insight>)
    ensures insights == SentimentLines(sentiment) + ClarityLines(clarity) + ActionLines(action)
  {
    insights := [];
    if sentiment >= 8.0 {
      insights := insights + [HighResonance];
    } else if sentiment <= 4.0 {
      insights := insights + [LowAppeal];
    }
    assert insights == SentimentLines(sentiment);
    ghost var sofar := insights;
    if clarity <= 5.0 {
      insights := insights + [ClarityConcerns];
    } else if clarity >= 8.0 {
      insights := insights + [ExcellentClarity];
    }
    assert insights == sofar + ClarityLines(clarity);
    sofar := insights;
    if action >= 7.0 {
      insights := insights + [StrongAction];
    } else if action <= 4.0 {
      insights := insights + [WeakAction];
    }
    assert insights == sofar + ActionLines(action);
  }

  /** `_generate_behavioral_insights`. */
  method BehavioralInsights(d: FeedbackData, scenario: string) returns (insights: seq<Insight>)
    ensures insights == InsightsFor(d, scenario)
  {
    var s := d.summary.GetOr(EmptySummary);
    var sentiment := s.avgSentiment.GetOr(DefaultScore);
    var clarity := s.avgClarity.GetOr(DefaultScore);
    var action := s.avgAction.GetOr(DefaultScore);
    insights := ThresholdInsights(sentiment, clarity, action);
    ghost var sofar := insights;
    if scenario == "insurance_renewal" {
      if sentiment > action {
        insights := insights + [WeakDrivers];
      }
    } else if scenario == "healthcare_reminder" {
      if clarity > action {
        insights := insights + [LowUrgency];
      }
    }
    assert insights == sofar + ScenarioLines(scenario, sentiment, clarity, action);
    sofar := insights;
    var fs := d.feedback.GetOr([]);
    if fs != [] {
      var scores := Sentiments(fs, DefaultScore);
      if MaxOf(scores) - MinOf(scores) > 3.0 {
        insights := insights + [HighVariance];
      }
    }
    assert insights == sofar + LineIf(HighSpread(fs), HighVariance);
    assert insights == InsightLines(sentiment, clarity, action, scenario, HighSpread(fs));
    var keep := if |insights| < MaxInsights then |insights| else MaxInsights;
    insights := insights[..keep];
  }

  /** Every entry carries `customer_comments`. */
  predicate AllCommented(fs: seq<FeedbackEntry>) {
    forall i :: 0 <= i < |fs| ==> fs[i].hasComments
  }

  /** `_calculate_feedback_confidence` (before rounding). */
  function Confidence(d: FeedbackData): (c: real)
    ensures d.feedback.GetOr([]) == [] ==> c == 0.3
  {
    var fs := d.feedback.GetOr([]);
    if fs == [] then 0.3
    else
      var sample := if |fs| as real / 5.0 < 1.0 then |fs| as real / 5.0 else 1.0;
      var consistency := 1.0 - d.summary.GetOr(EmptySummary).sentimentRange.GetOr(0.0) / 10.0;
      var completeness := if AllCommented(fs) then 1.0 else 0.8;
      (sample + consistency + completeness) / 3.0
  }

  /** With entries present and a sentiment range between 0 and 10 (scores on the 1-10 scale), the confidence
      is the mean of a sample factor in [0.2, 1], a consistency factor in [0, 1] and a completeness factor in
      {0.8, 1}, so it lies in [1/3, 1]; full marks need at least five entries, no spread and comments
      everywhere. */
  lemma ConfidenceBounds(d: FeedbackData)
    requires d.feedback.GetOr([]) != []
    requires var r := d.summary.GetOr(EmptySummary).sentimentRange.GetOr(0.0); 0.0 <= r <= 10.0
    ensures 1.0 / 3.0 <= Confidence(d) <= 1.0
    ensures Confidence(d) == 1.0 <==>
              |d.feedback.value| >= 5 && d.summary.GetOr(EmptySummary).sentimentRange.GetOr(0.0) == 0.0
              && AllCommented(d.feedback.value)
  {
  }

  const ActionWords := ["please", "now", "today"]

  /** The fallback's scores for one text: sentiment 7 for 11 to 49 words, clarity 8 under 30 words, action 6
      when the text asks for action. */
  function FallbackEntryOf(i: nat, m: MessageView): (e: FeedbackEntry)
    ensures var text := m.content.GetOr(""); var words := WordCount(text);
      && e.id == Some(m.id.GetOr(i + 1))
      && e.sentiment == Some(if 10 < words < 50 then 7.0 else 5.0)
      && e.clarity == Some(if words < 30 then 8.0 else 6.0)
      && e.action == Some(if Contains(Lower(text), "please") || Contains(Lower(text), "now")
                              || Contains(Lower(text), "today") then 6.0 else 4.0)
      && e.hasComments
  {
    var text := m.content.GetOr("");
    var words := WordCount(text);
    var lowered := Lower(text);
    var sentiment := if 10 < words < 50 then 7 else 5;
    var clarity := if words < 30 then 8 else 6;
    var action := if Contains(lowered, ActionWords[0]) || Contains(lowered, ActionWords[1])
                     || Contains(lowered, ActionWords[2]) then 6 else 4;
    FeedbackEntry(Some(m.id.GetOr(i + 1)), Some(sentiment as real), Some(clarity as real), Some(action as real), true)
  }

  /** The body of the message loop of `_fallback_feedback_analysis`. */
  method FallbackOne(i: nat, m: MessageView) returns (e: FeedbackEntry)
    ensures e == FallbackEntryOf(i, m)
  {
    var text := m.content.GetOr("");
    var words := WordCount(text);
    var sentiment := 5;
    if words > 10 && words < 50 {
      sentiment := 7;
    }
    var clarity := 6;
    if words < 30 {
      clarity := 8;
    }
    var lowered := Lower(text);
    var action := 4;
    var k := 0;
    while k < |ActionWords|
      invariant 0 <= k <= |ActionWords|
      invariant action == (if exists j :: 0 <= j < k && Contains(lowered, ActionWords[j]) then 6 else 4)
    {
      if Contains(lowered, ActionWords[k]) {
        action := 6;
      }
      k := k + 1;
    }
    e := FeedbackEntry(Some(m.id.GetOr(i + 1)), Some(sentiment as real), Some(clarity as real), Some(action as real), true);
  }

  /** `_fallback_feedback_analysis`: one scored entry per message, in order; the average sentiment is their
      mean, or 5 with no messages, and so lies between 5 and 7; the response rate is 0.08 and the one insight
      says the fallback was applied. */
  method FallbackFeedback(messages: seq<MessageView>, scenario: string) returns (out: Output)
    ensures out.FallbackScored? && out.scenario == scenario
    ensures |out.entries| == |messages|
    ensures forall i :: 0 <= i < |messages| ==> out.entries[i] == FallbackEntryOf(i, messages[i])
    ensures messages == [] ==> out.summary == FallbackSummary(5.0)
    ensures messages != [] ==> out.summary == FallbackSummary(Mean(Sentiments(out.entries, DefaultScore)))
    ensures out.summary.avgSentiment.Some? && 5.0 <= out.summary.avgSentiment.value <= 7.0
    ensures out.summary.predictedResponseRate == Some(0.08) && out.summary.keyInsights == Some([FallbackInsight])
  {
    var entries: seq<FeedbackEntry> := [];
    for i := 0 to |messages|
      invariant |entries| == i
      invariant forall j :: 0 <= j < i ==> entries[j] == FallbackEntryOf(j, messages[j])
    {
      var e := FallbackOne(i, messages[i]);
      entries := entries + [e];
    }
    var avg := 5.0;
    if entries != [] {
      var xs := Sentiments(entries, DefaultScore);
      avg := Mean(xs);
      SumBounds(xs, 5.0, 7.0);
      MeanBounds(Sum(xs), |xs| as real, 5.0, 7.0);
    }
    out := FallbackScored(FallbackSummary(avg), entries, scenario);
  }

  /** `_process_llm_response`: a reply that is not JSON goes to the fallback; JSON that is not an object
      yields the error record; an object is enhanced, then given insights and a confidence level. */
  method ProcessReply(parsed: Result<Reply, ParseError>, messages: seq<MessageView>, scenario: string)
    returns (out: Output)
    ensures parsed.Failure? ==>
              && out.FallbackScored? && out.scenario == scenario
              && |out.entries| == |messages|
              && (forall i :: 0 <= i < |messages| ==> out.entries[i] == FallbackEntryOf(i, messages[i]))
              && (messages == [] ==> out.summary == FallbackSummary(5.0))
              && (messages != [] ==> out.summary == FallbackSummary(Mean(Sentiments(out.entries, DefaultScore))))
              && out.summary.avgSentiment.Some? && 5.0 <= out.summary.avgSentiment.value <= 7.0
              && out.summary.predictedResponseRate == Some(0.08)
    ensures parsed.Success? && parsed.value.NotObject? ==>
              && out == Failed(ErrorSummary, InvalidFormatError, scenario)
              && out.summary.avgSentiment == Some(5.0) && out.summary.predictedResponseRate == Some(0.05)
    ensures parsed.Success? && parsed.value.Object? ==>
              && out.Analysed?
              && out.data == Enhance(parsed.value.data, scenario)
              && out.insights == InsightsFor(out.data, scenario)
              && out.confidence == Confidence(out.data)
              && out.scenario == scenario
  {
    match parsed {
      case Failure(_) =>
        out := FallbackFeedback(messages, scenario);
      case Success(NotObject) =>
        out := Failed(ErrorSummary, InvalidFormatError, scenario);
      case Success(Object(d)) =>
        var enhanced := Enhance(d, scenario);
        var insights := BehavioralInsights(enhanced, scenario);
        out := Analysed(enhanced, insights, scenario, Confidence(enhanced));
    }
  }

  /** The `message_feedback` entries later agents read. */
  function EntriesOf(o: Output): (fs: seq<FeedbackEntry>)
    ensures o.Failed? ==> fs == []
    ensures o.FallbackScored? ==> fs == o.entries
    ensures o.Analysed? ==> fs == o.data.feedback.GetOr([])
  {
    match o
    case Analysed(d, _, _, _) => d.feedback.GetOr([])
    case FallbackScored(_, es, _) => es
    case Failed(_, _, _) => []
  }
}
