/** The static tables the agents read: each agent's display name and base adaptations, and the scenario
    catalogue with its per-agent overrides. */
module Config {
  import opened Wrappers
  import opened Dicts
  import opened Shared

  /** The four registered agents. */
  datatype AgentKey = CopywriterAgent | ComplianceAgent | FeedbackAgent | DecisionAgent

  /** The registry key of an agent. */
  function KeyName(k: AgentKey): string {
    match k
    case CopywriterAgent => "copywriter"
    case ComplianceAgent => "compliance"
    case FeedbackAgent => "feedback"
    case DecisionAgent => "decision"
  }

  /** The agent registered under a key, if any. */
  function KeyOf(name: string): (k: Option<AgentKey>)
    ensures k.Some? ==> KeyName(k.value) == name
  {
    if name == "copywriter" then Some(CopywriterAgent)
    else if name == "compliance" then Some(ComplianceAgent)
    else if name == "feedback" then Some(FeedbackAgent)
    else if name == "decision" then Some(DecisionAgent)
    else None
  }

  /** Every agent is found again under its own key. */
  lemma KeyOfKeyName(k: AgentKey)
    ensures KeyOf(KeyName(k)) == Some(k)
  {
  }

  /** The display name an agent logs under. */
  function AgentName(k: AgentKey): string {
    match k
    case CopywriterAgent => "Dynamic Copywriter"
    case ComplianceAgent => "Dynamic Compliance Checker"
    case FeedbackAgent => "Dynamic Feedback Simulator"
    case DecisionAgent => "Dynamic Decision Optimizer"
  }

  /** A list of strings. */
  function Texts(xs: seq<string>): seq<Value> {
    seq(|xs|, i requires 0 <= i < |xs| => Str(xs[i]))
  }

  /** The agent's own `dynamic_adaptations`. */
  function BaseAdaptations(k: AgentKey): (d: Adaptations)
    ensures d.Valid()
  {
    match k
    case CopywriterAgent => CopywriterBase()
    case ComplianceAgent => ComplianceBase()
    case FeedbackAgent => FeedbackBase()
    case DecisionAgent => DecisionBase()
  }

  function CopywriterBase(): (d: Adaptations)
    ensures d.Valid()
  {
    Empty()
      .Put("renewal_scenario", Str("Focus on urgency and value retention"))
      .Put("promotion_scenario", Str("Emphasize benefits and limited-time offers"))
      .Put("reminder_scenario", Str("Use gentle persistence and helpful tone"))
      .Put("follow_up_scenario", Str("Be supportive and solution-oriented"))
  }

  function ComplianceBase(): (d: Adaptations)
    ensures d.Valid()
  {
    Empty()
      .Put("financial_services", Str("Apply TCPA, CAN-SPAM, FINRA regulations"))
      .Put("healthcare", Str("Focus on HIPAA and FDA compliance"))
      .Put("insurance", Str("Insurance regulatory compliance focus"))
      .Put("general_business", Str("Standard commercial compliance"))
  }

  function FeedbackBase(): (d: Adaptations)
    ensures d.Valid()
  {
    Empty()
      .Put("age_40_plus", Str("Conservative, value security and clarity"))
      .Put("millennials", Str("Prefer authentic, mobile-optimized communication"))
      .Put("business_customers", Str("Focus on ROI and efficiency"))
      .Put("retail_customers", Str("Emotional connection and convenience"))
  }

  function DecisionBase(): (d: Adaptations)
    ensures d.Valid()
  {
    Empty()
      .Put("high_compliance_focus", Str("Prioritize compliance over performance"))
      .Put("performance_focus", Str("Optimize for engagement and conversion"))
      .Put("balanced_approach", Str("Balance all factors equally"))
      .Put("risk_averse", Str("Choose safest option with good results"))
  }

  /** The display name of a catalogued scenario; `None` for any other scenario. */
  function ScenarioName(scenario: string): Option<string> {
    if scenario == "financial_renewal" then Some("Financial Services Renewal")
    else if scenario == "healthcare_reminder" then Some("Healthcare Appointment Reminder")
    else if scenario == "ecommerce_promotion" then Some("E-commerce Promotional Campaign")
    else None
  }

  /** The scenario's `agent_adaptations` for one agent; empty for a scenario not in the catalogue. */
  function Overrides(scenario: string, k: AgentKey): (d: Adaptations)
    ensures d.Valid()
    ensures ScenarioName(scenario).None? ==> d == Empty()
  {
    if scenario == "financial_renewal" then FinancialRenewal(k)
    else if scenario == "healthcare_reminder" then HealthcareReminder(k)
    else if scenario == "ecommerce_promotion" then EcommercePromotion(k)
    else Empty()
  }

  function FinancialRenewal(k: AgentKey): (d: Adaptations)
    ensures d.Valid()
  {
    match k
    case CopywriterAgent => (Empty()
      .Put("focus", Str("Trust, security, value proposition"))
      .Put("tone_adjustment", Str("Professional yet warm"))
      .Put("personalization_level", Str("high")))
    case ComplianceAgent => (Empty()
      .Put("primary_regulations", Items(Texts(["TCPA", "FINRA", "State Financial"])))
      .Put("risk_threshold", Str("low"))
      .Put("special_requirements", Items(Texts(["opt_out_language", "clear_identification"]))))
    case FeedbackAgent => (Empty()
      .Put("demographic_model", Str("conservative_investors"))
      .Put("response_patterns", Str("security_focused"))
      .Put("decision_factors", Items(Texts(["trust", "clarity", "value"]))))
    case DecisionAgent => (Empty()
      .Put("optimization_priority", Str("compliance_first"))
      .Put("success_weight", Entries([("compliance", Num(0.4)), ("engagement", Num(0.3)), ("conversion", Num(0.3))])))
  }

  function HealthcareReminder(k: AgentKey): (d: Adaptations)
    ensures d.Valid()
  {
    match k
    case CopywriterAgent => (Empty()
      .Put("focus", Str("Health importance, convenience, care"))
      .Put("tone_adjustment", Str("Caring and supportive"))
      .Put("personalization_level", Str("medium")))
    case ComplianceAgent => (Empty()
      .Put("primary_regulations", Items(Texts(["HIPAA", "HITECH"])))
      .Put("risk_threshold", Str("very_low"))
      .Put("special_requirements", Items(Texts(["phi_protection", "secure_messaging"]))))
    case FeedbackAgent => (Empty()
      .Put("demographic_model", Str("health_conscious"))
      .Put("response_patterns", Str("appointment_focused"))
      .Put("decision_factors", Items(Texts(["convenience", "health_importance", "trust"]))))
    case DecisionAgent => (Empty()
      .Put("optimization_priority", Str("patient_care"))
      .Put("success_weight", Entries([("compliance", Num(0.5)), ("patient_satisfaction", Num(0.3)), ("attendance", Num(0.2))])))
  }

  function EcommercePromotion(k: AgentKey): (d: Adaptations)
    ensures d.Valid()
  {
    match k
    case CopywriterAgent => (Empty()
      .Put("focus", Str("Value, urgency, benefits"))
      .Put("tone_adjustment", Str("Energetic and persuasive"))
      .Put("personalization_level", Str("high")))
    case ComplianceAgent => (Empty()
      .Put("primary_regulations", Items(Texts(["CAN-SPAM", "GDPR"])))
      .Put("risk_threshold", Str("medium"))
      .Put("special_requirements", Items(Texts(["unsubscribe_link", "sender_identification"]))))
    case FeedbackAgent => (Empty()
      .Put("demographic_model", Str("online_shoppers"))
      .Put("response_patterns", Str("deal_focused"))
      .Put("decision_factors", Items(Texts(["value", "urgency", "trust"]))))
    case DecisionAgent => (Empty()
      .Put("optimization_priority", Str("conversion"))
      .Put("success_weight", Entries([("conversion", Num(0.4)), ("engagement", Num(0.3)), ("compliance", Num(0.3))])))
  }
}
