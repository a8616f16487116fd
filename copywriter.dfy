/** The drafting (copywriter) agent's post-processing: normalising the
    message list the model returned, and the line-based fallback parser used
    when the reply is not JSON. */
module Copywriter {
  import opened Wrappers
  import opened Text
  import opened Shared

  /** A message object from the model's reply; any field may be missing. */
  datatype DraftIn = DraftIn(id: Option<int>, content: Option<string>, features: Option<seq<string>>,
                             alignment: Option<string>)

  /** One element of the reply's JSON array: an object, or any other value given by its `str()` form. */
  datatype Element = Object(draft: DraftIn) | Scalar(text: string)

  /** The reply once parsed as JSON: an array, or some other JSON value. */
  datatype Reply = Array(elements: seq<Element>) | NotArray

  /** `json.JSONDecodeError`. */
  datatype ParseError = ParseError

  /** A normalised message with its metrics. */
  datatype Draft = Draft(id: int, content: Option<string>, features: seq<string>, alignment: string,
                         wordCount: nat, charCount: nat, placeholderCount: nat)

  /** A message recovered (or padded in) by the fallback parser. */
  datatype FallbackDraft = FallbackDraft(id: int, content: string, features: seq<string>, alignment: string)

  /** `generation_summary` of a normalised reply. */
  datatype Summary = Summary(avgWordCount: real, avgCharCount: real, placeholderUsage: nat)

  /** The agent's `data` payload. */
  datatype Output =
    | Generated(messages: seq<Draft>, totalGenerated: nat, scenario: string, summary: Summary)
    | FallbackParsed(drafts: seq<FallbackDraft>, totalGenerated: nat, scenario: string)
    | Invalid(error: string, rawResponse: string)

  const NotListError := "Failed to process messages: Response is not a list of messages"
  const RawResponseLimit: nat := 500
  const MinimumMessages: nat := 3

  /** The placeholder keys `k` whose slot `{k}` occurs in the text. */
  function PlaceholdersUsed(text: string, placeholders: set<string>): (used: set<string>)
    ensures used <= placeholders
    ensures forall k :: k in used <==> k in placeholders && Contains(text, "{" + k + "}")
  {
    set k | k in placeholders && Contains(text, "{" + k + "}")
  }

  /** Element `i` of the reply once normalised: a non-object becomes `{message_id: i+1, content: str(e),
      features: []}`; absent `message_id`, `features` and `scenario_alignment` are filled in and present
      ones are kept; the metrics are computed from the content. */
  function Normalise(i: nat, e: Element, placeholders: set<string>, scenario: string): (d: Draft)
    ensures e.Scalar? ==> d.id == i + 1 && d.content == Some(e.text) && d.features == []
    ensures e.Object? ==> d.content == e.draft.content
    ensures e.Object? ==> d.id == e.draft.id.GetOr(i + 1) && d.features == e.draft.features.GetOr([])
    ensures e.Object? && e.draft.alignment.Some? ==> d.alignment == e.draft.alignment.value
    ensures (e.Scalar? || e.draft.alignment.None?) ==> d.alignment == "Generated for " + scenario
    ensures d.wordCount == |Words(d.content.GetOr(""))| && d.charCount == |d.content.GetOr("")|
    ensures d.placeholderCount == |PlaceholdersUsed(d.content.GetOr(""), placeholders)|
    ensures d.placeholderCount <= |placeholders|
  {
    var m := match e
      case Object(x) => x
      case Scalar(t) => DraftIn(Some(i + 1), Some(t), Some([]), None);
    var text := m.content.GetOr("");
    var used := PlaceholdersUsed(text, placeholders);
    assert |used| <= |placeholders| by { SubsetCardinality(used, placeholders); }
    Draft(m.id.GetOr(i + 1), m.content, m.features.GetOr([]), m.alignment.GetOr("Generated for " + scenario),
          WordCount(text), |text|, |used|)
  }

  lemma SubsetCardinality<T>(a: set<T>, b: set<T>)
    requires a <= b
    ensures |a| <= |b|
  {
    assert b == a + (b - a);
  }

  /** The loop over the reply's elements: one normalised message per element, in order. */
  method NormaliseAll(elements: seq<Element>, placeholders: set<string>, scenario: string)
    returns (messages: seq<Draft>)
    ensures |messages| == |elements|
    ensures forall i :: 0 <= i < |elements| ==> messages[i] == Normalise(i, elements[i], placeholders, scenario)
  {
    messages := [];
    for i := 0 to |elements|
      invariant |messages| == i
      invariant forall j :: 0 <= j < i ==> messages[j] == Normalise(j, elements[j], placeholders, scenario)
    {
      messages := messages + [Normalise(i, elements[i], placeholders, scenario)];
    }
  }

  function TotalWords(ms: seq<Draft>): nat {
    if ms == [] then 0 else ms[0].wordCount + TotalWords(ms[1..])
  }

  function TotalChars(ms: seq<Draft>): nat {
    if ms == [] then 0 else ms[0].charCount + TotalChars(ms[1..])
  }

  function TotalPlaceholders(ms: seq<Draft>): nat {
    if ms == [] then 0 else ms[0].placeholderCount + TotalPlaceholders(ms[1..])
  }

  /** `generation_summary`: averages over the messages (0 when there are none) and the total placeholder use. */
  function Summarise(ms: seq<Draft>): (s: Summary)
    ensures ms == [] ==> s.avgWordCount == 0.0 && s.avgCharCount == 0.0
    ensures ms != [] ==> s.avgWordCount * |ms| as real == TotalWords(ms) as real
    ensures ms != [] ==> s.avgCharCount * |ms| as real == TotalChars(ms) as real
    ensures s.placeholderUsage == TotalPlaceholders(ms)
  {
    if ms == [] then Summary(0.0, 0.0, TotalPlaceholders(ms))
    else Summary(TotalWords(ms) as real / |ms| as real, TotalChars(ms) as real / |ms| as real, TotalPlaceholders(ms))
  }

  /** With at most `bound` placeholders per message, the total is at most `bound` times the message count. */
  lemma {:induction false} PlaceholderUsageBound(ms: seq<Draft>, bound: nat)
    requires forall i :: 0 <= i < |ms| ==> ms[i].placeholderCount <= bound
    ensures TotalPlaceholders(ms) <= |ms| * bound
    decreases |ms|
  {
    if ms != [] {
      PlaceholderUsageBound(ms[1..], bound);
      assert |ms| * bound == bound + (|ms| - 1) * bound;
    }
  }

  /** The fallback parser's running state: finished contents, the pending message, the marker counter. */
  datatype ScanState = ScanState(done: seq<string>, pending: string, counter: nat)

  /** A kept line that mentions "message", "option" or the counter's digits (ignoring case). */
  predicate IsMarker(line: string, counter: nat) {
    var l := Lower(line);
    Contains(l, "message") || Contains(l, "option") || Contains(l, DecimalString(counter))
  }

  /** Blank lines and lines starting with "{" or "[" are skipped. */
  predicate Skipped(line: string) {
    line == [] || StartsWith(line, "{") || StartsWith(line, "[")
  }

  /** The pending message, if non-empty, appended (stripped) to the finished ones. */
  function Flush(st: ScanState): seq<string> {
    if st.pending != [] then st.done + [Strip(st.pending)] else st.done
  }

  /** One line of the fallback parse. */
  function Step(st: ScanState, raw: string): ScanState {
    var line := Strip(raw);
    if Skipped(line) then st
    else if IsMarker(line, st.counter) then ScanState(Flush(st), [], st.counter + 1)
    else st.(pending := st.pending + line + " ")
  }

  /** The state after reading the given lines in order, from the initial state. */
  function Scan(lines: seq<string>): ScanState
    decreases |lines|
  {
    if lines == [] then ScanState([], [], 1) else Step(Scan(lines[..|lines| - 1]), lines[|lines| - 1])
  }

  /** The lines the fallback parser reads. */
  function Lines(content: string): seq<string> {
    SplitOn(Strip(content), '\n')
  }

  /** The message contents the fallback parser recovers from the raw reply. */
  function Recovered(content: string): seq<string> {
    Flush(Scan(Lines(content)))
  }

  /** A state whose finished messages are non-empty and whose pending text, if any, starts with a
      non-space character (it always starts with a stripped line). */
  ghost predicate NonBlank(st: ScanState) {
    (forall k :: 0 <= k < |st.done| ==> st.done[k] != [])
    && (st.pending != [] ==> !IsSpace(st.pending[0]))
  }

  lemma {:induction false} TrimEndKeeps(s: string, i: nat)
    requires i < |s| && !IsSpace(s[i])
    ensures TrimEnd(s) != []
    decreases |s|
  {
    if IsSpace(s[|s| - 1]) {
      TrimEndKeeps(s[..|s| - 1], i);
    }
  }

  lemma FlushNonBlank(st: ScanState)
    requires NonBlank(st)
    ensures forall k :: 0 <= k < |Flush(st)| ==> Flush(st)[k] != []
  {
    if st.pending != [] {
      assert TrimStart(st.pending) == st.pending;
      TrimEndKeeps(st.pending, 0);
    }
  }

  lemma StepNonBlank(st: ScanState, raw: string)
    requires NonBlank(st)
    ensures NonBlank(Step(st, raw))
  {
    var line := Strip(raw);
    if !Skipped(line) {
      if IsMarker(line, st.counter) {
        FlushNonBlank(st);
      }
    }
  }

  lemma {:induction false} ScanNonBlank(lines: seq<string>)
    ensures NonBlank(Scan(lines))
    decreases |lines|
  {
    if lines != [] {
      ScanNonBlank(lines[..|lines| - 1]);
      StepNonBlank(Scan(lines[..|lines| - 1]), lines[|lines| - 1]);
    }
  }

  /** Every recovered message has visible text. */
  lemma RecoveredNonBlank(content: string)
    ensures forall k :: 0 <= k < |Recovered(content)| ==> Recovered(content)[k] != []
  {
    ScanNonBlank(Lines(content));
    FlushNonBlank(Scan(Lines(content)));
  }

  /** A recovered message as the fallback reports it. */
  function ParsedDraft(i: nat, content: string, scenario: string): FallbackDraft {
    FallbackDraft(i + 1, content, ["fallback_parsed"], "Fallback parsed for " + scenario)
  }

  /** A padding message as the fallback reports it. */
  function PaddingDraft(i: nat, scenario: string): FallbackDraft {
    FallbackDraft(i + 1, "Generated message " + DecimalString(i + 1) + " for " + scenario, ["auto_generated"],
                  "Auto-generated for " + scenario)
  }

  /** The body of the line loop of `_fallback_message_parsing`. */
  method ReadLine(st: ScanState, raw: string) returns (next: ScanState)
    ensures next == Step(st, raw)
  {
    next := st;
    var line := Strip(raw);
    if line != [] && !StartsWith(line, "{") && !StartsWith(line, "[") {
      if IsMarker(line, st.counter) {
        if st.pending != [] {
          next := next.(done := st.done + [Strip(st.pending)], pending := []);
        }
        next := next.(counter := st.counter + 1);
      } else {
        next := next.(pending := st.pending + line + " ");
      }
    }
  }

  /** The line loop of `_fallback_message_parsing`. */
  method ScanLines(lines: seq<string>) returns (st: ScanState)
    ensures st == Scan(lines)
  {
    st := ScanState([], [], 1);
    for i := 0 to |lines|
      invariant st == Scan(lines[..i])
    {
      assert lines[..i + 1][..i] == lines[..i];
      st := ReadLine(st, lines[i]);
    }
    assert lines[..|lines|] == lines;
  }

  /** The numbering and padding step of `_fallback_message_parsing`: the recovered messages in order, then
      padding up to three messages. */
  method NumberAndPad(recovered: seq<string>, scenario: string) returns (drafts: seq<FallbackDraft>)
    ensures |drafts| == (if |recovered| < MinimumMessages then MinimumMessages else |recovered|)
    ensures forall i :: 0 <= i < |recovered| ==> drafts[i] == ParsedDraft(i, recovered[i], scenario)
    ensures forall i :: |recovered| <= i < |drafts| ==> drafts[i] == PaddingDraft(i, scenario)
  {
    drafts := [];
    for i := 0 to |recovered|
      invariant |drafts| == i
      invariant forall j :: 0 <= j < i ==> drafts[j] == ParsedDraft(j, recovered[j], scenario)
    {
      drafts := drafts + [ParsedDraft(i, recovered[i], scenario)];
    }
    while |drafts| < MinimumMessages
      invariant |recovered| <= |drafts|
      invariant |drafts| <= if |recovered| < MinimumMessages then MinimumMessages else |recovered|
      invariant forall j :: 0 <= j < |recovered| ==> drafts[j] == ParsedDraft(j, recovered[j], scenario)
      invariant forall j :: |recovered| <= j < |drafts| ==> drafts[j] == PaddingDraft(j, scenario)
      decreases MinimumMessages - |drafts|
    {
      drafts := drafts + [PaddingDraft(|drafts|, scenario)];
    }
  }

  /** `drafts` are the fallback's messages for `content`: the recovered messages numbered in order, then
      padding messages up to three. */
  ghost predicate FallbackDrafts(content: string, scenario: string, drafts: seq<FallbackDraft>) {
    var r := Recovered(content);
    && |drafts| == (if |r| < MinimumMessages then MinimumMessages else |r|)
    && (forall i :: 0 <= i < |r| ==> drafts[i] == ParsedDraft(i, r[i], scenario))
    && (forall i :: |r| <= i < |drafts| ==> drafts[i] == PaddingDraft(i, scenario))
  }

  /** `_fallback_message_parsing`: scan the lines, then number and pad what was recovered. */
  method FallbackParse(content: string, scenario: string) returns (drafts: seq<FallbackDraft>)
    ensures FallbackDrafts(content, scenario, drafts)
  {
    var st := ScanLines(Lines(content));
    var recovered := if st.pending != [] then st.done + [Strip(st.pending)] else st.done;
    drafts := NumberAndPad(recovered, scenario);
  }

  /** The fallback's output for the text's recovered messages has at least three messages, numbered 1..n,
      none of them empty, with every recovered message before every padding one. */
  lemma FallbackShape(content: string, scenario: string, drafts: seq<FallbackDraft>)
    requires FallbackDrafts(content, scenario, drafts)
    ensures |drafts| >= MinimumMessages
    ensures forall i :: 0 <= i < |drafts| ==> drafts[i].id == i + 1 && drafts[i].content != []
    ensures forall i, j :: 0 <= i < j < |drafts| && drafts[j].features == ["fallback_parsed"] ==>
              drafts[i].features == ["fallback_parsed"]
  {
    var r := Recovered(content);
    RecoveredNonBlank(content);
    NumberedShape(r, scenario, drafts);
  }

  lemma NumberedShape(r: seq<string>, scenario: string, drafts: seq<FallbackDraft>)
    requires forall k :: 0 <= k < |r| ==> r[k] != []
    requires |drafts| == (if |r| < MinimumMessages then MinimumMessages else |r|)
    requires forall i :: 0 <= i < |r| ==> drafts[i] == ParsedDraft(i, r[i], scenario)
    requires forall i :: |r| <= i < |drafts| ==> drafts[i] == PaddingDraft(i, scenario)
    ensures forall i :: 0 <= i < |drafts| ==> drafts[i].id == i + 1 && drafts[i].content != []
    ensures forall i, j :: 0 <= i < j < |drafts| && drafts[j].features == ["fallback_parsed"] ==>
              drafts[i].features == ["fallback_parsed"]
  {
  }

  /** `_process_llm_response`: a reply that is not JSON goes to the fallback parser; JSON that is not a list
      yields an error with the raw reply cut to 500 characters; a list is normalised element by element. */
  method ProcessReply(parsed: Result<Reply, ParseError>, raw: string, placeholders: set<string>, scenario: string)
    returns (out: Output)
    ensures parsed.Failure? ==>
              && out.FallbackParsed? && out.scenario == scenario
              && FallbackDrafts(raw, scenario, out.drafts)
              && out.totalGenerated == |out.drafts| >= MinimumMessages
    ensures parsed.Success? && parsed.value.NotArray? ==>
              out == Invalid(NotListError, Truncate(raw, RawResponseLimit))
    ensures parsed.Success? && parsed.value.Array? ==>
              && out.Generated?
              && out.totalGenerated == |out.messages| == |parsed.value.elements|
              && (forall i :: 0 <= i < |out.messages| ==>
                    out.messages[i] == Normalise(i, parsed.value.elements[i], placeholders, scenario))
              && out.summary == Summarise(out.messages)
              && out.scenario == scenario
  {
    match parsed {
      case Failure(_) =>
        var drafts := FallbackParse(raw, scenario);
        FallbackShape(raw, scenario, drafts);
        out := FallbackParsed(drafts, |drafts|, scenario);
      case Success(NotArray) =>
        out := Invalid(NotListError, if |raw| > RawResponseLimit then raw[..RawResponseLimit] + "..." else raw);
      case Success(Array(elements)) =>
        var messages := NormaliseAll(elements, placeholders, scenario);
        out := Generated(messages, |messages|, scenario, Summarise(messages));
    }
  }

  /** The messages of the payload as later agents read `data.messages` (none for an error payload). */
  function MessageViews(o: Output): (vs: seq<MessageView>)
    ensures o.Invalid? ==> vs == []
    ensures o.Generated? ==> |vs| == |o.messages|
    ensures o.Generated? ==>
              forall i :: 0 <= i < |vs| ==> vs[i] == MessageView(Some(o.messages[i].id), o.messages[i].content)
    ensures o.FallbackParsed? ==> |vs| == |o.drafts|
    ensures o.FallbackParsed? ==>
              forall i :: 0 <= i < |vs| ==> vs[i] == MessageView(Some(o.drafts[i].id), Some(o.drafts[i].content))
  {
    match o
    case Generated(ms, _, _, _) => seq(|ms|, i requires 0 <= i < |ms| => MessageView(Some(ms[i].id), ms[i].content))
    case FallbackParsed(ds, _, _) => seq(|ds|, i requires 0 <= i < |ds| => MessageView(Some(ds[i].id), Some(ds[i].content)))
    case Invalid(_, _) => []
  }
}
