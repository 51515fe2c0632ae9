/**
 The chat endpoint's knowledge base: an ordered table of entries, each a list
 of lower-case trigger phrases and the topic whose answer they select, grouped
 as the table's sections are.
 */
module ChatKnowledge {
  import opened Text
  import opened ChatAnswers

  /** One knowledge-base record: lower-case trigger phrases and the answer they select. */
  datatype Entry = Entry(triggers: seq<string>, topic: Topic)

  /** Company identity. */
  const CompanyIdentity: seq<Entry> :=
    [
      Entry(["who are you", "what is tekmakon", "about tekmakon", "company"], Identity),
      Entry(["location", "where are you", "office"], Location)
    ]

  /** Products. */
  const Products: seq<Entry> :=
    [
      Entry(["opsuite", "energy monitoring", "cost tracking"], OpSuite)
    ]

  /** Teaching mode: concepts explained simply. */
  const TeachingMode: seq<Entry> :=
    [
      Entry(["modbus", "protocol"], Modbus),
      Entry(["iot", "internet of things"], Iot),
      Entry(["predictive maintenance", "fix before break"], PredictiveMaintenance)
    ]

  /** Core services: strategy. */
  const StrategyServices: seq<Entry> :=
    [
      Entry(["strategy", "consulting", "digital transformation"], Strategy),
      Entry(["roadmap", "planning", "future"], Roadmap)
    ]

  /** Core services: custom development. */
  const CustomDevelopment: seq<Entry> :=
    [
      Entry(["web system", "website", "custom web"], WebSystems),
      Entry(["mobile app", "android", "ios", "app development"], MobileApps),
      Entry(["offline", "desktop app", "no internet"], OfflineApps)
    ]

  /** Core services: automation and AI. */
  const AutomationAndAi: seq<Entry> :=
    [
      Entry(["automation", "rpa", "repetitive"], Automation),
      Entry(["ai", "machine learning", "chatbot"], Ai)
    ]

  /** Sales and business. */
  const SalesAndBusiness: seq<Entry> :=
    [
      Entry(["start", "begin", "process", "how to work"], StartingAProject),
      Entry(["price", "cost", "quote", "pricing"], Pricing),
      Entry(["contact", "email", "phone", "talk to team"], Contact)
    ]

  /** Frequently asked questions. */
  const Faqs: seq<Entry> :=
    [
      Entry(["residential", "home", "house"], Residential),
      Entry(["support", "maintenance", "after launch"], Support)
    ]

  /** The knowledge base, in declaration order; it is a constant and never changes. */
  const KnowledgeBase: seq<Entry> :=
    CompanyIdentity + Products + TeachingMode + StrategyServices
    + CustomDevelopment + AutomationAndAi + SalesAndBusiness + Faqs

  /** What a trigger must be for the scan over a lower-cased message to behave:
      non-empty, not starting with white space, and without capitals. */
  predicate WellFormedTrigger(t: string) {
    |t| > 0 && !IsWhitespace(t[0]) && IsLowerCase(t)
  }

  /** Every trigger of the entry is well formed. */
  predicate EntryWellFormed(e: Entry) {
    forall k :: 0 <= k < |e.triggers| ==> WellFormedTrigger(e.triggers[k])
  }

  // One lemma per entry, each trigger checked on its own: this keeps every
  // proof small.

  lemma IdentityTriggersWellFormed()
    ensures EntryWellFormed(CompanyIdentity[0])
  {
    var ts := CompanyIdentity[0].triggers;
    assert WellFormedTrigger(ts[0]);
    assert WellFormedTrigger(ts[1]);
    assert WellFormedTrigger(ts[2]);
    assert WellFormedTrigger(ts[3]);
  }

  lemma LocationTriggersWellFormed()
    ensures EntryWellFormed(CompanyIdentity[1])
  {
    var ts := CompanyIdentity[1].triggers;
    assert WellFormedTrigger(ts[0]);
    assert WellFormedTrigger(ts[1]);
    assert WellFormedTrigger(ts[2]);
  }

  lemma OpSuiteTriggersWellFormed()
    ensures EntryWellFormed(Products[0])
  {
    var ts := Products[0].triggers;
    assert WellFormedTrigger(ts[0]);
    assert WellFormedTrigger(ts[1]);
    assert WellFormedTrigger(ts[2]);
  }

  lemma ModbusTriggersWellFormed()
    ensures EntryWellFormed(TeachingMode[0])
  {
    var ts := TeachingMode[0].triggers;
    assert WellFormedTrigger(ts[0]);
    assert WellFormedTrigger(ts[1]);
  }

  lemma IotTriggersWellFormed()
    ensures EntryWellFormed(TeachingMode[1])
  {
    var ts := TeachingMode[1].triggers;
    assert WellFormedTrigger(ts[0]);
    assert WellFormedTrigger(ts[1]);
  }

  lemma PredictiveMaintenanceTriggersWellFormed()
    ensures EntryWellFormed(TeachingMode[2])
  {
    var ts := TeachingMode[2].triggers;
    assert WellFormedTrigger(ts[0]);
    assert WellFormedTrigger(ts[1]);
  }

  lemma StrategyTriggersWellFormed()
    ensures EntryWellFormed(StrategyServices[0])
  {
    var ts := StrategyServices[0].triggers;
    assert WellFormedTrigger(ts[0]);
    assert WellFormedTrigger(ts[1]);
    assert WellFormedTrigger(ts[2]);
  }

  lemma RoadmapTriggersWellFormed()
    ensures EntryWellFormed(StrategyServices[1])
  {
    var ts := StrategyServices[1].triggers;
    assert WellFormedTrigger(ts[0]);
    assert WellFormedTrigger(ts[1]);
    assert WellFormedTrigger(ts[2]);
  }

  lemma WebSystemsTriggersWellFormed()
    ensures EntryWellFormed(CustomDevelopment[0])
  {
    var ts := CustomDevelopment[0].triggers;
    assert WellFormedTrigger(ts[0]);
    assert WellFormedTrigger(ts[1]);
    assert WellFormedTrigger(ts[2]);
  }

  lemma MobileAppsTriggersWellFormed()
    ensures EntryWellFormed(CustomDevelopment[1])
  {
    var ts := CustomDevelopment[1].triggers;
    assert WellFormedTrigger(ts[0]);
    assert WellFormedTrigger(ts[1]);
    assert WellFormedTrigger(ts[2]);
    assert WellFormedTrigger(ts[3]);
  }

  lemma OfflineAppsTriggersWellFormed()
    ensures EntryWellFormed(CustomDevelopment[2])
  {
    var ts := CustomDevelopment[2].triggers;
    assert WellFormedTrigger(ts[0]);
    assert WellFormedTrigger(ts[1]);
    assert WellFormedTrigger(ts[2]);
  }

  lemma AutomationTriggersWellFormed()
    ensures EntryWellFormed(AutomationAndAi[0])
  {
    var ts := AutomationAndAi[0].triggers;
    assert WellFormedTrigger(ts[0]);
    assert WellFormedTrigger(ts[1]);
    assert WellFormedTrigger(ts[2]);
  }

  lemma AiTriggersWellFormed()
    ensures EntryWellFormed(AutomationAndAi[1])
  {
    var ts := AutomationAndAi[1].triggers;
    assert WellFormedTrigger(ts[0]);
    assert WellFormedTrigger(ts[1]);
    assert WellFormedTrigger(ts[2]);
  }

  lemma StartingAProjectTriggersWellFormed()
    ensures EntryWellFormed(SalesAndBusiness[0])
  {
    var ts := SalesAndBusiness[0].triggers;
    assert WellFormedTrigger(ts[0]);
    assert WellFormedTrigger(ts[1]);
    assert WellFormedTrigger(ts[2]);
    assert WellFormedTrigger(ts[3]);
  }

  lemma PricingTriggersWellFormed()
    ensures EntryWellFormed(SalesAndBusiness[1])
  {
    var ts := SalesAndBusiness[1].triggers;
    assert WellFormedTrigger(ts[0]);
    assert WellFormedTrigger(ts[1]);
    assert WellFormedTrigger(ts[2]);
    assert WellFormedTrigger(ts[3]);
  }

  lemma ContactTriggersWellFormed()
    ensures EntryWellFormed(SalesAndBusiness[2])
  {
    var ts := SalesAndBusiness[2].triggers;
    assert WellFormedTrigger(ts[0]);
    assert WellFormedTrigger(ts[1]);
    assert WellFormedTrigger(ts[2]);
    assert WellFormedTrigger(ts[3]);
  }

  lemma ResidentialTriggersWellFormed()
    ensures EntryWellFormed(Faqs[0])
  {
    var ts := Faqs[0].triggers;
    assert WellFormedTrigger(ts[0]);
    assert WellFormedTrigger(ts[1]);
    assert WellFormedTrigger(ts[2]);
  }

  lemma SupportTriggersWellFormed()
    ensures EntryWellFormed(Faqs[1])
  {
    var ts := Faqs[1].triggers;
    assert WellFormedTrigger(ts[0]);
    assert WellFormedTrigger(ts[1]);
    assert WellFormedTrigger(ts[2]);
  }

  /** Every trigger of the knowledge base is non-empty, lower-case and does
      not start with white space. */
  lemma KnowledgeBaseWellFormed()
    ensures forall i :: 0 <= i < |KnowledgeBase| ==> EntryWellFormed(KnowledgeBase[i])
  {
    IdentityTriggersWellFormed();
    LocationTriggersWellFormed();
    OpSuiteTriggersWellFormed();
    ModbusTriggersWellFormed();
    IotTriggersWellFormed();
    PredictiveMaintenanceTriggersWellFormed();
    StrategyTriggersWellFormed();
    RoadmapTriggersWellFormed();
    WebSystemsTriggersWellFormed();
    MobileAppsTriggersWellFormed();
    OfflineAppsTriggersWellFormed();
    AutomationTriggersWellFormed();
    AiTriggersWellFormed();
    StartingAProjectTriggersWellFormed();
    PricingTriggersWellFormed();
    ContactTriggersWellFormed();
    ResidentialTriggersWellFormed();
    SupportTriggersWellFormed();
  }
}
