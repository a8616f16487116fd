# Dynamic multi-agent marketing pipeline — verified model

This project models the deterministic core of a marketing-message pipeline. Four language-model agents run
one after another:

- the copywriter drafts messages;
- the compliance checker reviews them against keyword rules;
- the feedback simulator scores them for an audience;
- the decision optimiser ranks them and recommends one.

Every agent is wrapped in the same envelope. The envelope merges the scenario's adaptations, calls the
model gateway, builds a success or failure record and writes one audit entry. The model covers:

- **Workflow driver** (`workflow.dfy`, `SimpleWorkflowEngine.execute_dynamic_workflow`). It is a class
  whose method runs the agent sequence in a `while` loop with `continue` and `break`. The loop is proved
  against the function `Workflow.Run`. Lemmas about `Run` state how the loop treats unknown agents,
  exceptions, critical failures, `previous_results` and the summary.
- **Agent envelope** (`base_agent.py`, `BaseDynamicAgent`). `Agent.ProcessDynamic` changes the shared
  `AuditLog` and returns the envelope. Its contract ties the envelope to the function `Run` and states
  the one audit entry it appends. The adaptation merge, the gateway request and the missing-key fallback
  of the system prompt are functions with their own lemmas.
- **Post-processors** (`copywriter.dfy`, `compliance.dfy`, `feedback.dfy`, `decision.dfy`). Each
  `_process_llm_response` becomes a method `ProcessReply` that routes on the parsed reply:
  - not JSON goes to the agent's fallback;
  - JSON of the wrong shape gives the agent's error record;
  - otherwise the reply is post-processed.

  The loops of the source (normalisation, rule checks, the fallback scanners, the ranking, the lookup
  and search loops) are methods proved against specification functions. The properties are lemmas about
  those functions.
- **Audit log** (`audit.dfy`, `DynamicAuditLogger`). It is a class holding the list of entries.
  Logging appends one entry. The analytics methods are proved against functions whose properties are
  lemmas: counts, rates, the ten most used adaptations and the last ten entries.
- **Support modules.**
  - `dicts.dfy`: Python's insertion-ordered `dict`, including `{**a, **b}`.
  - `text.dfy`: the string operations the agents use.
  - `stable_sort.dfy`: `list.sort(reverse=True)` as an in-place insertion sort on an array, proved
    stable.
  - `config.dfy`: the agent and scenario tables.
  - `shared.dfy`: the value types the agents share.

Two defects of the decision agent are kept as written, because the pipeline's observable behaviour
depends on them:

- `agents/decision_agent.py:214` calls `.get` on the list `message_analyses`.
- `agents/decision_agent.py:516-517` calls `.get` on the list `ranking`.

Both raise `AttributeError`, which line 184 turns into the error record of lines 185-191.
`Decision.EnhanceDecision` and `Decision.DecisionConfidence` have these error branches.
`Decision.TwoAnalysesAlwaysFail` proves the consequence: when the reply carries no ranking, two or more
non-empty compliance analyses always end in the error record.

Gateway calls, clocks, identifiers and JSON parsing are parameters of the model:

- the gateway is a function from request to response;
- elapsed times and timestamps are given as values;
- a parsed reply is a `Result` of a reply datatype or a parse error.

## Model

| member | source | states |
|---|---|---|
| Workflow.SequenceUsed | utils/workflow_engine.py:19 | A missing or empty sequence becomes the four agents in pipeline order; a non-empty one is used as given; the result is never empty. |
| Workflow.CountSuccessful | utils/workflow_engine.py:68 | The number of successful entries never exceeds the number of keys counted. |
| Workflow.Engine.constructor | utils/workflow_engine.py:6-8 | The engine holds the given agent registry and the agents behind it. |
| Workflow.Engine.ExecuteDynamicWorkflow | utils/workflow_engine.py:10-73 | The returned dictionary is the loop's results over the sequence used, plus the summary, as `Results` defines them. |
| Workflow.StoppedStays | utils/workflow_engine.py:54-55 | Once the loop has broken out, later names change nothing. |
| Workflow.RunPrefix | utils/workflow_engine.py:28 | The loop over the first i+1 names is the loop over the first i followed by one pass for name i. |
| Workflow.StoppedAt | utils/workflow_engine.py:54-55 | A loop that broke out at name i has the state it had after name i. |
| Workflow.RunKeys | utils/workflow_engine.py:28-62 | Both dictionaries are well formed, every result key is a name of the sequence, and there are at most as many keys as names. |
| Workflow.RunComplete | utils/workflow_engine.py:28-62 | A loop that did not break out has an entry for every name of the sequence. |
| Workflow.ReachedHasEntry | utils/workflow_engine.py:28-62 | Every name the loop reached before breaking out has an entry, including in a run that breaks out later. |
| Workflow.StopsOnCriticalFailure | utils/workflow_engine.py:54-55 | The loop breaks out if and only if a stored reply has success false and critical true. Unavailable names, exceptions and non-critical failures never stop it. |
| Workflow.AgentResultsSpec | utils/workflow_engine.py:40-62 | Every name whose stored entry is a reply has that reply in `previous_results`. Every name in `previous_results` is registered and has a result entry, which is a reply or an exception. |
| Workflow.EntryKinds | utils/workflow_engine.py:29-62 | An unregistered name is recorded as "Agent <name> not available". A registered name is recorded as its reply, or as the exception it raised tagged with its own name. |
| Workflow.ResultsSpec | utils/workflow_engine.py:64-71 | The keys are the loop's keys followed by `workflow_summary` (unless a name already took it). `total_agents` is the sequence length, `sequence_used` is the sequence, `successful_agents` is at most `total_agents`, and every other entry is the loop's. |
| Config.KeyOf | config/agent_configs.py:13-151 | A name the registry knows maps to the agent registered under exactly that name. |
| Config.KeyOfKeyName | config/agent_configs.py:13-151 | Every agent is found again under its own registry key. |
| Config.BaseAdaptations | config/agent_configs.py:38-149 | Each agent's base adaptation table is a well-formed dictionary. |
| Config.Overrides | config/scenarios.py:3-78 | The scenario's per-agent overrides are a well-formed dictionary, empty for a scenario outside the catalogue. |
| BaseAgent.ScenarioAdaptations | agents/base_agent.py:106-114 | Merging the base adaptations with the scenario's overrides gives a well-formed dictionary. |
| BaseAgent.ScenarioAdaptationsSpec | agents/base_agent.py:106-114 | A key the scenario overrides takes the scenario's value and every other key keeps its base value. The base keys keep their order and the scenario's new keys follow. |
| BaseAgent.UnknownScenarioKeepsBase | agents/base_agent.py:108-114 | A scenario outside the catalogue leaves the base adaptations unchanged. |
| BaseAgent.SystemPrompt | agents/base_agent.py:134-135 | A template that formats is used as formatted. |
| BaseAgent.SystemPromptFallback | agents/base_agent.py:136-138 | On a missing key k, a template without `{k}` is used unchanged. When k holds none of the characters of "N/A", no `{k}` is left in the prompt. |
| BaseAgent.SystemPromptSplit | agents/base_agent.py:136-138 | On a missing key k, the text before the first `{k}` is kept, that `{k}` becomes "N/A", and the rest of the template is rewritten the same way. |
| BaseAgent.Request | agents/base_agent.py:32-38 | The gateway receives the adaptations' temperature and max_tokens when they set them, else 0.7 and 2000, always with response format "json". |
| BaseAgent.Run | agents/base_agent.py:19-104 | The envelope succeeds if and only if the prompts build, the gateway succeeds and post-processing succeeds. A gateway failure gives the error "LLM call failed: " + its error with 0 tokens. A success carries the processed data, the adaptations used, the gateway's tokens and model, the agent key and the start time. |
| BaseAgent.EntryFor | agents/base_agent.py:67-102 | The audit entry's success flag is the envelope's, it logs the input and the envelope under the agent's name, and only a success logs adaptations and performance. |
| BaseAgent.Agent.constructor | agents/base_agent.py:12-17 | The agent holds its key, its configured base adaptations and the shared logger. |
| BaseAgent.Agent.ProcessDynamic | agents/base_agent.py:19-104 | Returns the envelope `Run` defines for the merged adaptations and appends exactly one audit entry for it to the logger, changing nothing else in the log. |
| Copywriter.PlaceholdersUsed | agents/copywriter_agent.py:99-100 | A placeholder key counts exactly when its slot `{k}` occurs in the content. |
| Copywriter.Normalise | agents/copywriter_agent.py:87-100 | A non-object element i becomes message i+1 with its text and no features. An object keeps its id, features and alignment when present and gets i+1, [] and "Generated for <scenario>" otherwise. The word, character and placeholder counts are those of its content, and the placeholder count is at most the number of placeholders. |
| Copywriter.NormaliseAll | agents/copywriter_agent.py:86-102 | One normalised message per element, in order. |
| Copywriter.Summarise | agents/copywriter_agent.py:104-113 | The averages are 0 with no messages and otherwise multiply back to the totals; placeholder usage is the total placeholder count. |
| Copywriter.PlaceholderUsageBound | agents/copywriter_agent.py:99-111 | With at most b placeholders per message, the usage is at most b times the number of messages. |
| Copywriter.RecoveredNonBlank | agents/copywriter_agent.py:132-155 | Every message the fallback parser recovers has visible text. |
| Copywriter.ReadLine | agents/copywriter_agent.py:133-146 | One line of the fallback scan: skipped lines change nothing, a marker line closes the pending message and advances the counter, any other line is added to the pending message. |
| Copywriter.ScanLines | agents/copywriter_agent.py:132-146 | The line loop ends in the state `Scan` defines for the lines. |
| Copywriter.NumberAndPad | agents/copywriter_agent.py:149-164 | The recovered messages come first, numbered in order, then padding messages up to three. |
| Copywriter.FallbackParse | agents/copywriter_agent.py:125-174 | The fallback's messages are the text's recovered messages, numbered in order and padded to at least three. |
| Copywriter.FallbackShape | agents/copywriter_agent.py:137-164 | The fallback returns at least three messages with ids 1..n and no empty content, and every parsed message precedes every padding one. |
| Copywriter.NumberedShape | agents/copywriter_agent.py:149-164 | Numbering and padding non-empty recovered messages gives ids 1..n and non-empty contents, parsed before padded. |
| Copywriter.ProcessReply | agents/copywriter_agent.py:76-123 | Non-JSON goes to the fallback. Its messages are the text's recovered messages numbered in order, then padding up to three, and `total_generated` is their number. Non-list JSON gives the error with the raw reply cut to 500 characters plus "...". A list gives one normalised message per element, `total_generated` equal to their number, and their summary. |
| Copywriter.MessageViews | agents/compliance_agent.py:157 | Later agents read exactly the copywriter's messages, with their ids and contents, and none from an error payload. |
| Shared.MessagesToReview | agents/compliance_agent.py:157-159 | The agents review the copywriter's messages when there are any, else the caller's. |
| Compliance.RuleSetFor | agents/compliance_agent.py:147-154 | The rule set is financial services if and only if the scenario contains "insurance" or "financial"; otherwise healthcare if and only if it contains "health"; otherwise general. |
| Compliance.MatchesAnySpec | agents/compliance_agent.py:176 | A pattern matches exactly when one of its literal alternatives occurs in the text, ignoring case. |
| Compliance.RuleViolations | agents/compliance_agent.py:174-183 | There are at most as many rule violations as rules. |
| Compliance.RuleViolationsSpec | agents/compliance_agent.py:174-183 | A rule's violation is reported if and only if the rule matches the text. |
| Compliance.CheckRules | agents/compliance_agent.py:174-183 | The rule loop yields one violation per matching rule, in rule order. |
| Compliance.ContentForFirst | agents/compliance_agent.py:165-171 | The message content used is that of the first message carrying the analysis's id. |
| Compliance.ContentForNone | agents/compliance_agent.py:165-171 | With no message carrying the id, the content checked is empty. |
| Compliance.FindContent | agents/compliance_agent.py:165-171 | The search loop, stopping at the first match, finds the content `ContentFor` defines. |
| Compliance.CountSeverity | agents/compliance_agent.py:190-192 | A severity count never exceeds the number of violations. |
| Compliance.CountSeverityAppend | agents/compliance_agent.py:186-192 | Severity counts add up over concatenated violation lists. |
| Compliance.CountSeverityPositive | agents/compliance_agent.py:190-201 | A severity count is positive if and only if some violation has that severity. |
| Compliance.Score | agents/compliance_agent.py:194 | The score lies in [0, 100] and is 100 if and only if there is no HIGH, MEDIUM or LOW violation. |
| Compliance.RiskOf | agents/compliance_agent.py:201 | HIGH if and only if there is a HIGH violation; MEDIUM if and only if there is no HIGH but a MEDIUM one; LOW otherwise. |
| Compliance.StricterWithMore | agents/compliance_agent.py:186-201 | More violations never raise the score nor lower the risk level. |
| Compliance.Enhance | agents/compliance_agent.py:163-204 | The enhanced analysis keeps its id. Its violations are the model's followed by the rule hits on its message. The rule-check count is the number of hits and at most the number of rules. The score and risk are recomputed from all violations. |
| Compliance.EnhanceOne | agents/compliance_agent.py:164-204 | The loop body builds the analysis `Enhance` defines. |
| Compliance.Totals | agents/compliance_agent.py:207-217 | The two sums are the total score and the total rule hits. |
| Compliance.EnhanceAll | agents/compliance_agent.py:162-204 | One enhanced analysis per model analysis, in order. |
| Compliance.ApplyRuleChecks | agents/compliance_agent.py:143-218 | One enhanced analysis per model analysis, in order, under the scenario's rule set. The overall score is their mean, or the model's value or 50 with none. The total rule violations is the sum of the rule hits. |
| Compliance.CountRisk | agents/compliance_agent.py:227-229 | A risk-level count never exceeds the number of analyses. |
| Compliance.RiskCountsPartition | agents/compliance_agent.py:227-229 | Every analysis is counted under exactly one of HIGH, MEDIUM and LOW. |
| Compliance.RiskMetricsOf | agents/compliance_agent.py:220-250 | UNKNOWN if and only if there are no analyses. Otherwise the counts partition the analyses and the risk is HIGH if and only if a message is HIGH or the average is below 60, and LOW if and only if none is HIGH or MEDIUM and the average is at least 80. The recommendation is APPROVED exactly for LOW and NOT_APPROVED exactly for HIGH. |
| Compliance.FallbackAnalysisOf | agents/compliance_agent.py:262-291 | The id defaults to i+1. Each of the two checks reports its violation if and only if its pattern matches. The score is 100 minus 30 per HIGH violation and 15 per MEDIUM one, so one of 100, 85, 70 and 55. The risk is HIGH if and only if the absolute-claims check matched, and LOW if and only if nothing matched. |
| Compliance.FallbackTotalBounds | agents/compliance_agent.py:293 | Scores all in [55, 100] sum to between 55 and 100 times their number. |
| Compliance.FallbackOne | agents/compliance_agent.py:263-291 | The loop body builds the analysis `FallbackAnalysisOf` defines. |
| Compliance.FallbackAll | agents/compliance_agent.py:262-291 | One fallback analysis per message, in order. |
| Compliance.FallbackTotal | agents/compliance_agent.py:293 | The sum loop computes the total fallback score. |
| Compliance.FallbackMeanBounds | agents/compliance_agent.py:283-293 | The mean of fallback scores lies in [55, 100]. |
| Compliance.FallbackCompliance | agents/compliance_agent.py:252-301 | One analysis per message, in order. The overall score is their mean, or 0 with no messages, and lies in [55, 100] when there are messages. |
| Compliance.ProcessReply | agents/compliance_agent.py:109-141 | Non-JSON goes to the fallback: one fallback analysis per message, with overall score their mean in [55, 100], or 0 with no messages. Non-object JSON gives overall 50 with the format error. An object gives one enhanced analysis per model analysis under the scenario's rule set. Its overall score is their mean, or the model's value or 50 with none. Its rule-violation total is the sum of the rule hits, and it carries the risk metrics of the enhanced analyses. |
| Feedback.DemographicFor | agents/feedback_agent.py:89-98 | `age_40_plus` if and only if the age group contains "40" (or "above 40" ignoring case). Else `business_customers` if and only if the lower-cased audience contains "business" or "corporate". Else `healthcare_patients` if and only if the scenario contains "health" or the audience contains "patient". Else `millennials`. |
| Feedback.Statistics | agents/feedback_agent.py:177-190 | The three averages are the means of the scores with 5 for absent ones. The sentiment range is max minus min and never negative. The top message is the first entry with maximal sentiment. The model's other summary fields are kept, its key insights included. |
| Feedback.WithDerivedRate | agents/feedback_agent.py:192-198 | Only insurance renewal (x 0.8), healthcare reminder (x 0.7) and ecommerce promotion (x 0.15) set their derived rate from the average action; nothing else changes. |
| Feedback.Enhance | agents/feedback_agent.py:169-204 | With no feedback entries the data is returned unchanged; otherwise the entries are kept, the summary gets the statistics and derived rate, and the analysis is marked enhanced. |
| Feedback.EnhancedSentimentWithin | agents/feedback_agent.py:185-188 | With every sentiment in [lo, hi], the average sentiment lies in [lo, hi] and the range is at most hi - lo. |
| Feedback.SentimentLinesSpec | agents/feedback_agent.py:217-221 | The resonance line appears if and only if sentiment >= 8, the low-appeal line if and only if sentiment <= 4. |
| Feedback.ClarityLinesSpec | agents/feedback_agent.py:223-227 | The clarity-concerns line appears if and only if clarity <= 5, the excellent-clarity line if and only if clarity >= 8. |
| Feedback.ActionLinesSpec | agents/feedback_agent.py:229-233 | The strong-action line appears if and only if action >= 7, the weak-action line if and only if action <= 4. |
| Feedback.ScenarioLinesSpec | agents/feedback_agent.py:235-241 | The weak-drivers line appears if and only if the scenario is insurance renewal and sentiment exceeds action; the low-urgency line if and only if it is healthcare reminder and clarity exceeds action. |
| Feedback.InsightLines | agents/feedback_agent.py:206-249 | There are at most five insight lines. |
| Feedback.InsightLinesSpec | agents/feedback_agent.py:206-249 | Each of the nine insight lines is present if and only if its threshold is met. |
| Feedback.InsightsFor | agents/feedback_agent.py:210-249 | The insights of a feedback object number at most five. |
| Feedback.ThresholdInsights | agents/feedback_agent.py:217-233 | The three threshold blocks append the sentiment, clarity and action lines in that order. |
| Feedback.BehavioralInsights | agents/feedback_agent.py:206-249 | The method returns the insights `InsightsFor` defines. |
| Feedback.Confidence | agents/feedback_agent.py:251-264 | The confidence is 0.3 with no feedback entries. |
| Feedback.ConfidenceBounds | agents/feedback_agent.py:251-264 | With entries and a sentiment range in [0, 10], the confidence lies in [1/3, 1]. It is 1 if and only if there are at least five entries, no spread and comments on every entry. |
| Feedback.FallbackEntryOf | agents/feedback_agent.py:276-294 | The id defaults to i+1. Sentiment is 7 if and only if 10 < words < 50, else 5. Clarity is 8 if and only if words < 30, else 6. Action is 6 if and only if the lower-cased text contains "please", "now" or "today", else 4. The entry carries comments. |
| Feedback.FallbackOne | agents/feedback_agent.py:277-294 | The loop body builds the entry `FallbackEntryOf` defines. |
| Feedback.FallbackFeedback | agents/feedback_agent.py:266-308 | One scored entry per message, in order. The summary's average sentiment is their mean, or 5 with no messages, and lies in [5, 7]. Its predicted response rate is 0.08, and its only key insight says the fallback was applied. |
| Feedback.ProcessReply | agents/feedback_agent.py:136-167 | Non-JSON goes to the fallback: one scored entry per message, with average sentiment their mean in [5, 7], or 5 with no messages. Non-object JSON gives the format error with a summary of average sentiment 5.0 and response rate 0.05, and no entries. An object is enhanced and carries its insights and confidence. |
| Feedback.EntriesOf | agents/decision_agent.py:242 | The decision agent reads the entries of the feedback payload, and none from an error payload. |
| Decision.AnalysesOf | agents/decision_agent.py:198-209 | The decision agent reads one analysis per rule-checked or fallback analysis, with its id, score, risk level and violation count, and none from an error payload. Every analysis it reads carries one of the three risk levels. |
| Decision.WeightsFor | agents/decision_agent.py:10-41 | Every weight row is positive and sums to 1, and an unknown scenario gets the default row. |
| Decision.CompositeWithin | agents/decision_agent.py:266-276 | A compliance score in [0, 100] and feedback scores in [0, 10] give a composite in [0, 100]. |
| Decision.LastForSpec | agents/decision_agent.py:249-253 | The lookup finds an entry if and only if one carries the id, and then it is the last such entry. |
| Decision.BuildLookup | agents/decision_agent.py:249-253 | The lookup loop maps each id to the last entry carrying it. |
| Decision.Row | agents/decision_agent.py:262-287 | The row keeps the analysis's id (0 when absent) and score (0 when absent). Missing feedback gives 5 for every feedback score, and the composite is the weighted score of the components. |
| Decision.Present | agents/decision_agent.py:258-260 | Skipping empty analyses never adds any. |
| Decision.RowsSpec | agents/decision_agent.py:255-287 | There is one row per non-empty analysis, built from that analysis and its feedback. |
| Decision.ScoreRows | agents/decision_agent.py:255-287 | The row loop builds the rows `Rows` defines. |
| Decision.Ranks | agents/decision_agent.py:293-294 | Each row gets its position plus one as rank, and nothing else changes. |
| Decision.AssignRanks | agents/decision_agent.py:293-294 | The rank loop writes rank i+1 into entry i in place. |
| Decision.CalculateRanking | agents/decision_agent.py:235-296 | The method returns the ranking `RankingOf` defines. |
| Decision.RankingSpec | agents/decision_agent.py:235-296 | The ranking has one entry per non-empty analysis and ranks 1..n, ordered by non-increasing composite score. It is a permutation of the rows, and rows with equal scores keep the analyses' order. |
| Decision.FirstAnalysisSpec | agents/decision_agent.py:310-314 | The search finds an analysis if and only if a non-empty one carries the id, and then the first such. |
| Decision.FindAnalysis | agents/decision_agent.py:310-314 | The search loop, stopping at the first match, finds the analysis `FirstAnalysis` defines. |
| Decision.FirstFeedbackSpec | agents/decision_agent.py:316-320 | The search finds an entry if and only if one carries the id, and then the first such. |
| Decision.FindFeedback | agents/decision_agent.py:316-320 | The search loop, stopping at the first match, finds the entry `FirstFeedback` defines. |
| Decision.Predict | agents/decision_agent.py:298-371 | The response rate is the smaller of the scenario's ceiling (0.25, 0.4, 0.2 or 0.15) and the action score times its factor. The compliance risk is the analysis's level, MEDIUM when absent. Renewal and customer satisfaction are set exactly for insurance renewal, attendance and patient satisfaction for healthcare reminder, and conversion for ecommerce promotion. Engagement is set for every other scenario. Satisfaction and engagement equal the sentiment score; renewal, attendance and conversion follow the source's formulas. |
| Decision.PredictWithin | agents/decision_agent.py:328-369 | With feedback scores in [0, 10], the response rate lies in [0, ceiling], renewal in [0.6, 0.75], attendance in [0.72, 0.8] and conversion in [0, 0.12]. |
| Decision.Assess | agents/decision_agent.py:373-397 | A missing analysis gives MEDIUM. Otherwise HIGH if and only if the level is HIGH, the score is below 60 or there are more than two violations, and LOW if and only if the level is LOW, the score is at least 80 and there are no violations. |
| Decision.DeploymentStatus | agents/decision_agent.py:402-429 | Immediate deployment if and only if the risk is LOW, confidence >= 0.8 and the compliance risk is LOW. Otherwise monitoring if and only if the risk is MEDIUM or confidence >= 0.6. Review otherwise. A label other than the three levels is never LOW or MEDIUM. |
| Decision.EnhanceDecision | agents/decision_agent.py:193-233 | Raises the list `.get` error if and only if the analyses are non-empty and none carries the recommended id. Otherwise the ranking, outcomes and risk are the reply's when present and computed for the recommended message when absent. |
| Decision.EnhancedIsAboutRecommended | agents/decision_agent.py:222-231 | A computed risk is the assessment of an analysis that carries the recommended id. |
| Decision.DataQuality | agents/decision_agent.py:505-510 | The data quality lies in [0, 1]. It is 1 if and only if all three earlier agents succeeded, and 0 if and only if none did. |
| Decision.ConfidenceOf | agents/decision_agent.py:523-534 | With the model's confidence in [0, 1], the decision confidence lies in [0.2, 0.875]. |
| Decision.ConfidenceFollowsRisk | agents/decision_agent.py:524-525 | A lower risk level strictly raises the decision confidence, and a label other than the three levels weighs exactly like HIGH. |
| Decision.DecisionConfidence | agents/decision_agent.py:498-534 | Raises the list `.get` error if and only if the ranking has two or more entries. Otherwise the confidence is the mean of data quality, 0.5, the risk factor and the model's confidence (0.5 when absent). |
| Decision.CandidateOf | agents/decision_agent.py:562-577 | The id defaults to 1 and the compliance score to 0. The composite is 0.6 x compliance + 0.4 x sentiment, and missing feedback gives sentiment 50. |
| Decision.Candidates | agents/decision_agent.py:558-577 | There is one candidate per non-empty analysis. |
| Decision.ScoreCandidates | agents/decision_agent.py:557-577 | The scoring loop builds the candidates `Candidates` defines. |
| Decision.Choice | agents/decision_agent.py:579-586 | With no candidates, message 1 with score 70. Otherwise the first candidate whose composite is maximal. |
| Decision.FallbackDecision | agents/decision_agent.py:536-601 | The fallback recommends the choice among the candidates, with confidence 0.6, response rate 0.08 and MEDIUM risks. |
| Decision.ProcessReply | agents/decision_agent.py:155-191 | Non-JSON goes to the fallback: the first candidate with the highest composite, confidence 0.6, response rate 0.08 and MEDIUM risks. Non-object JSON gives the error record with id 1 and confidence 0.3. Either `.get` defect gives that error record. Otherwise the enhanced decision carries its deployment status, confidence and the scenario's weights. |
| Decision.TwoAnalysesAlwaysFail | agents/decision_agent.py:218-219 | A computed ranking over two or more non-empty analyses has at least two entries, so lines 515-517 raise. |
| Audit.ForScenario | utils/audit_logger.py:56 | The scenario's entries are entries of that scenario and no more than the log holds. |
| Audit.ForScenarioEmpty | utils/audit_logger.py:56-59 | A scenario has no entries if and only if no log entry is about it. |
| Audit.ForScenarioAppend | utils/audit_logger.py:56 | Selecting a scenario's entries commutes with appending to the log. |
| Audit.LoggingAddsOne | utils/audit_logger.py:51-56 | Logging an entry adds it to its own scenario's entries and leaves every other scenario's entries unchanged. |
| Audit.ByAgent | utils/audit_logger.py:83-84 | An agent's entries are entries of that agent and no more than the log holds. |
| Audit.Successes | utils/audit_logger.py:63 | The successes never exceed the entries counted. |
| Audit.LastTen | utils/audit_logger.py:109 | The last ten entries, or all of them when there are fewer, as a suffix of the list. |
| Audit.CountPairs | utils/audit_logger.py:74-77 | The counter's items are exactly the labels seen, each with its number of occurrences. |
| Audit.TopOfSorted | utils/audit_logger.py:78 | The first ten items sorted by count are at most ten, are in non-increasing count, and are all items. Any item left out counts no more than the tenth. |
| Audit.TopEntries | utils/audit_logger.py:72-78 | Each kept label is a label seen, with its number of occurrences. |
| Audit.TopComplete | utils/audit_logger.py:72-78 | A label left out occurs no more often than the tenth one kept. |
| Audit.TopSpec | utils/audit_logger.py:72-78 | The ten most frequent labels, in non-increasing count, each with its count. A label left out counts no more than the last kept. |
| Audit.MostUsedSpec | utils/audit_logger.py:72-78 | `most_used_adaptations` keeps at most ten key:value labels, in non-increasing count, each with its number of uses across the entries. |
| Audit.CountEntry | utils/audit_logger.py:76-77 | Counting one entry's labels extends the counter to all labels seen so far. |
| Audit.CommonAdaptations | utils/audit_logger.py:72-78 | The method returns the ten most used labels as `MostUsed` defines. |
| Audit.TalliesValid | utils/audit_logger.py:82-91 | The per-agent counters form a well-formed dictionary. |
| Audit.TalliesSpec | utils/audit_logger.py:82-91 | An agent has counters if and only if it has entries, and they count exactly its entries, successes and processing time. |
| Audit.TallyOfSnoc | utils/audit_logger.py:88-91 | Counting one more entry bumps the executions, the successes when it succeeded, and the total time. |
| Audit.FinishedSpec | utils/audit_logger.py:94-96 | Exactly the counted agents get rates, each from its own counters. |
| Audit.PerformanceSpec | utils/audit_logger.py:80-98 | An agent is listed if and only if it has entries. Its executions count them, its successes are at most its executions, its success rate is their ratio in [0, 1], and its average time is its total over its executions. |
| Audit.CountAgents | utils/audit_logger.py:82-91 | The counting loop builds the counters `Tallies` defines. |
| Audit.AgentPerformance | utils/audit_logger.py:80-98 | The method returns the per-agent statistics `Performance` defines. |
| Audit.AnalyticsSpec | utils/audit_logger.py:54-70 | The analytics are empty if and only if the scenario has no entries. Otherwise they count the scenario's entries, with the success rate their success share in [0, 1] and the average time their total time (absent as 0) over their number. |
| Audit.ReportSpec | utils/audit_logger.py:100-110 | The exported entries are the scenario's last ten (all when fewer), in log order, all of that scenario. |
| Audit.AuditLog.constructor | utils/audit_logger.py:21-22 | A new logger holds no entries. |
| Audit.AuditLog.LogExecution | utils/audit_logger.py:24-52 | Appends exactly one entry at the end, with absent adaptations and metrics stored as empty tables, keeps the earlier entries, and returns its id. |
| Audit.AuditLog.ScenarioAnalytics | utils/audit_logger.py:54-70 | Returns the analytics `AnalyticsOf` defines for the current log. |
| Audit.AuditLog.ExportScenarioReport | utils/audit_logger.py:100-112 | Returns the report `ReportOf` defines for the current log. |
| Dicts.MergeSpec | agents/base_agent.py:114 | `{**a, **b}` gives b's value for b's keys and a's otherwise, with a's keys in order followed by b's new keys. |
| Dicts.CountsSpec | utils/audit_logger.py:77 | The counter holds exactly the keys seen, each with its number of occurrences. |
| StableSort.SortDescSpec | agents/decision_agent.py:290 | The descending sort is a permutation, orders by non-increasing key and keeps equal keys in their original order. |
| StableSort.InsertAt | agents/decision_agent.py:290 | One insertion step moves element i into the sorted prefix in place and leaves the rest of the array alone. |
| StableSort.SortArray | agents/decision_agent.py:290 | Sorting the array in place leaves it holding the stable descending sort of its old contents. |
| Shared.FirstMax | agents/feedback_agent.py:189 | `max(..., key=...)` picks an index whose key is maximal and before which every key is smaller. |
| Shared.MeanWithin | agents/feedback_agent.py:185 | A mean lies between the smallest and the largest of its numbers. |
| Shared.Rate | utils/audit_logger.py:63 | A share c/m of m things lies in [0, 1]. |
| Text.WordCountZeroIffBlank | agents/feedback_agent.py:279 | `len(s.split())` is 0 if and only if the string is all whitespace. |
| Text.Truncate | agents/copywriter_agent.py:122 | A string longer than n is cut to its first n characters plus "..."; a shorter one is kept. |
| Text.ReplaceAbsent | agents/base_agent.py:138 | Replacing a pattern that does not occur changes nothing. |
| Text.ReplaceRemoves | agents/base_agent.py:138 | When the replacement is non-empty and shares no character with the pattern, no occurrence of the pattern is left after `str.replace`. |
| Text.ReplaceKeepsPrefix | agents/base_agent.py:138 | Text before the first occurrence of the pattern is kept unchanged, and the rest is replaced the same way. |

## Left out

- Asynchrony: `async`/`await` is modelled as ordinary sequential calls.
- Clocks and identifiers: `datetime.now()`, `uuid4()` and the processing-time measurement are parameters (`elapsed`, `startedAt`, `logId`, `loggedAt`).
- The model gateway (`utils/llm_client.py`) is not part of this model. It is a function from a `GatewayRequest` to a `GatewayResponse`.
- The prompt text builders are not modelled, because they produce static prose with no property to prove. This covers `_generate_dynamic_user_prompt`, `_build_default_user_prompt`, `_get_compliance_focus`, `_get_scenario_feedback_context` and `_get_default_objectives`. Prompt building is a `Result` input to the envelope.
- `str.format` is not modelled beyond its outcome. Its result is the `FormatOutcome` input, and only the missing-key fallback is computed.
- `json.loads` and `json.dumps` are left out. A parsed reply is a datatype input, and the report is modelled before its JSON rendering.
- JSON `null` is not distinguished from an absent key. Wherever the source calls `.get(key, default)` the model uses the default, while Python would keep `None` and usually raise later.
- An exception that a post-processor raises on an ill-typed field is not modelled, beyond the error branches named in the model. Examples are a non-string `content` or a non-numeric score.
- Regular expressions are not modelled as such. The compliance patterns are literal alternations and are modelled as case-insensitive substring tests.
- Case folding: `lower()` is modelled for ASCII letters only. The compliance patterns' `re.IGNORECASE` matching is modelled the same way, so its Unicode case equivalences (such as "ı" and "i", "ſ" and "s", the Kelvin sign and "k") are not modelled. `split()` and `strip()` use Python's full `str.isspace` set.
- Python's `round(...)` and floating point are not modelled. Scores, averages and rates are exact reals, stated before rounding. The decision ranking is sorted on the unrounded composite.
- Decision.EnhanceDecision: a `null` entry in `message_analyses` is modelled as an empty object. In the `any(...)` test of line 212 a `null` would itself raise.
- Copywriter.Normalise: a message is reduced to the fields the agents read (id, content, features, alignment and the counts). Other keys the model's reply carries pass through in the source and are not kept.
- Compliance.ApplyRuleChecks: the source's `**llm_analysis` (agents/compliance_agent.py:211-212) passes every other top-level key of the model's reply through. `RuleChecked` keeps only the analyses, the overall score, the rule set and the rule-violation total.
- Feedback.Enhance: `{**feedback_data, ...}` and `{**feedback_summary, ...}` (agents/feedback_agent.py:183-184, 199-203) keep every key of the model's reply. `FeedbackData` and `Summary` keep only the keys the agents read or write. The fixed `simulation_methodology` text of line 155 is not kept either.
- Feedback.FallbackFeedback: the fixed texts of each fallback entry (`customer_comments`, `demographic_appeal`, `behavioral_prediction`) and the fallback's `analysis_method` and `note` are not kept. A comment is recorded only as `hasComments`.
- Decision.EnhanceDecision: `{**enhanced_decision, ...}` (agents/decision_agent.py:173-174) passes every key of the model's decision through. `Decision.Decision` keeps only the keys the agent reads or writes, so `rationale`, `composite_score`, `optimization_suggestions` and any other key are not kept.
- Decision.ProcessReply: the `deployment_recommendations` object (agents/decision_agent.py:402-436) is reduced to its `deployment_status`. The per-status `recommendations` lists, the scenario's `monitoring_requirements` and `success_metrics` (`_get_monitoring_requirements`, `_get_success_metrics`) and the fixed `decision_methodology` text are fixed prose and are not kept.
- Copywriter.FallbackParse: the fallback's fixed `parsing_method` and `generation_summary.note` texts (agents/copywriter_agent.py:169-172) are not kept.
- Compliance.ProcessReply: the fixed `compliance_methodology` text (agents/compliance_agent.py:130) is not kept.
- Compliance.FallbackCompliance: the fallback's fixed `analysis_method` and `note` texts (agents/compliance_agent.py:299-300) are not kept.
- Decision.FallbackDecision: the fallback's fixed `rationale`, `analysis_method` and `note` texts (agents/decision_agent.py:592, 599-600) are not kept.
- Message ids are modelled as integers. A string id from the model's reply is not modelled. In the source it would simply fail to match an integer id, raising nothing, so it is not covered by the ill-typed-field line above.
- Compliance.Enhance: a violation keeps its type, severity, description, matched pattern and suggestion. Any other key of a violation the model reports, and any other key of its analysis, passes through in the source and is not kept.
- Audit.LabelsOf: an adaptation's label is its key and value, not the `str()` rendering of the value. Two distinct values that render to the same text count separately in the model.
- Workflow.Engine.ExecuteDynamicWorkflow: each agent sees `previous_results` as a snapshot. In the source it is the live `agent_results` dictionary, which an agent could mutate. The input's own `workflow_context` and `previous_results` keys are shadowed, as in the source.
- Workflow.Entry: an agent's reply is reduced to its `success` and `critical` flags and an opaque body. The agents are modelled as one function from name and input to reply or exception.
- Config.BaseAdaptations: the tables are transcribed, but no shipped table sets `temperature` or `max_tokens`, and that is not proved. `BaseAgent.Request` states the defaults conditionally instead.
- Decision.DecisionConfidence: the consistency factor for two or more ranking entries is unreachable, because lines 516-517 raise first. It is therefore not modelled.
- The Streamlit user interface in `app.py` and the pydantic model classes are not part of this model.
