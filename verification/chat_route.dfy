/**
 The chat endpoint: a fixed, ordered knowledge base of trigger phrases and
 canned answers. A message is lower-cased, the first entry with a trigger
 occurring anywhere in it supplies the answer, and a fixed menu answers
 everything else.
 */
module ChatRoute {
  import opened Wrappers
  import opened Text
  import opened ChatAnswers
  import opened ChatKnowledge

  /** The error text of a request that could not be processed. */
  const ProcessingError: string := "Failed to process message"

  /** Some trigger of `e` occurs in `message`. */
  ghost predicate Matches(e: Entry, message: string) {
    exists k :: 0 <= k < |e.triggers| && Occurs(e.triggers[k], message)
  }

  /** Entry `i` matches and no earlier entry does. */
  ghost predicate IsFirstMatch(kb: seq<Entry>, message: string, i: int) {
    && 0 <= i < |kb|
    && Matches(kb[i], message)
    && forall j :: 0 <= j < i ==> !Matches(kb[j], message)
  }

  /** No entry of `kb` matches. */
  ghost predicate NoMatch(kb: seq<Entry>, message: string) {
    forall j :: 0 <= j < |kb| ==> !Matches(kb[j], message)
  }

  /** `entry.triggers.some(trigger => message.includes(trigger))`. */
  function AnyTriggerIncluded(triggers: seq<string>, message: string): bool {
    if |triggers| == 0 then false
    else Includes(message, triggers[0]) || AnyTriggerIncluded(triggers[1..], message)
  }

  /** The `some` scan holds exactly when some trigger occurs in the message. */
  lemma {:induction false} AnyTriggerIncludedIsMatch(e: Entry, message: string)
    ensures AnyTriggerIncluded(e.triggers, message) <==> Matches(e, message)
    decreases |e.triggers|
  {
    var ts := e.triggers;
    if |ts| > 0 {
      var rest := Entry(ts[1..], e.topic);
      AnyTriggerIncludedIsMatch(rest, message);
      assert forall k :: 1 <= k < |ts| ==> ts[k] == rest.triggers[k - 1];
      if Matches(e, message) && !Includes(message, ts[0]) {
        var k :| 0 <= k < |ts| && Occurs(ts[k], message);
        assert Occurs(rest.triggers[k - 1], message);
      }
    }
  }

  /** `kb.find(entry => ...)`, reporting the position of the entry it finds. */
  function FindEntry(kb: seq<Entry>, message: string): (r: Option<nat>)
    ensures r.Some? ==> IsFirstMatch(kb, message, r.value)
    ensures r.None? ==> NoMatch(kb, message)
  {
    if |kb| == 0 then None
    else
      AnyTriggerIncludedIsMatch(kb[0], message);
      if AnyTriggerIncluded(kb[0].triggers, message) then Some(0)
      else
        match FindEntry(kb[1..], message)
        case None => None
        case Some(i) => Some(i + 1)
  }

  /** At most one entry is the first to match. */
  lemma FirstMatchUnique(kb: seq<Entry>, message: string, i: nat)
    requires IsFirstMatch(kb, message, i)
    ensures forall j :: IsFirstMatch(kb, message, j) ==> j == i
  {
  }

  /** The text is the fallback menu or the answer of one of the entries. */
  ghost predicate IsReplyText(kb: seq<Entry>, content: string) {
    content == Fallback || exists i :: 0 <= i < |kb| && content == Answer(kb[i].topic)
  }

  /** The answer for an already lower-cased message: the answer of the first
      matching entry in table order, or the fallback when none matches. */
  function Lookup(kb: seq<Entry>, message: string): (content: string)
    ensures forall i :: IsFirstMatch(kb, message, i) ==> content == Answer(kb[i].topic)
    ensures NoMatch(kb, message) ==> content == Fallback
    ensures IsReplyText(kb, content)
  {
    match FindEntry(kb, message)
    case Some(i) =>
      FirstMatchUnique(kb, message, i);
      Answer(kb[i].topic)
    case None => Fallback
  }

  /** The answer the endpoint gives for a message: matching runs on `message.toLowerCase()`. */
  function Reply(message: string): (content: string)
    ensures forall i :: IsFirstMatch(KnowledgeBase, ToLower(message), i) ==> content == Answer(KnowledgeBase[i].topic)
    ensures NoMatch(KnowledgeBase, ToLower(message)) ==> content == Fallback
    ensures IsReplyText(KnowledgeBase, content)
  {
    Lookup(KnowledgeBase, ToLower(message))
  }

  /** The `message` field of the request body as the handler sees it. */
  datatype Json = Absent | Str(s: string) | NotString

  /** The request: a body that is not JSON, or a JSON object whose `message` field is given. */
  datatype Request = Unparsable | Parsed(message: Json)

  /** The JSON body of a response. */
  datatype Body = ReplyBody(role: string, content: string) | ErrorBody(error: string)

  /** An HTTP response: status code and JSON body. */
  datatype Response = Response(status: nat, body: Body)

  /** The `POST` handler. Reading the body or lower-casing a `message` that is
      not a string throws, and every throw becomes a 500 with a fixed error. */
  function Post(req: Request): (r: Response)
    ensures r.status == 200 <==> req.Parsed? && req.message.Str?
    ensures r.status == 200 ==>
      && r.body.ReplyBody?
      && r.body.role == "assistant"
      && IsReplyText(KnowledgeBase, r.body.content)
    ensures r.status == 200 ==> r.body.content == Reply(req.message.s)
    ensures r.status != 200 ==> r == Response(500, ErrorBody(ProcessingError))
  {
    match req
    case Parsed(Str(message)) => Response(200, ReplyBody("assistant", Reply(message)))
    case _ => Response(500, ErrorBody(ProcessingError))
  }

  /** Earlier entries shadow later ones: once entry `i` matches, no later entry is found. */
  lemma EarlierEntryShadows(kb: seq<Entry>, message: string, i: nat, j: nat)
    requires i < j < |kb|
    requires Matches(kb[i], message)
    ensures FindEntry(kb, message) != Some(j)
  {
  }

  /** A matching entry guarantees an answer from the table: the entry itself or an earlier one. */
  lemma MatchingEntryIsFoundOrShadowed(kb: seq<Entry>, message: string, i: nat)
    requires i < |kb| && Matches(kb[i], message)
    ensures FindEntry(kb, message).Some? && FindEntry(kb, message).value <= i
  {
  }

  /** The `find` scan selects entry `i` when its `some` check succeeds and every earlier one fails. */
  lemma SelectsFirstIncluded(kb: seq<Entry>, message: string, i: nat)
    requires i < |kb| && AnyTriggerIncluded(kb[i].triggers, message)
    requires forall j :: 0 <= j < i ==> !AnyTriggerIncluded(kb[j].triggers, message)
    ensures FindEntry(kb, message) == Some(i)
  {
    AnyTriggerIncludedIsMatch(kb[i], message);
    forall j | 0 <= j < i
      ensures !Matches(kb[j], message)
    {
      AnyTriggerIncludedIsMatch(kb[j], message);
    }
    FirstMatchUnique(kb, message, i);
  }

  /** A trigger containing an earlier entry's trigger can never be the one that decides:
      wherever it occurs, the earlier trigger occurs too. */
  lemma ContainedTriggerIsShadowed(kb: seq<Entry>, message: string, i: nat, u: nat, j: nat, t: nat)
    requires i < j < |kb| && u < |kb[i].triggers| && t < |kb[j].triggers|
    requires Occurs(kb[i].triggers[u], kb[j].triggers[t])
    requires Occurs(kb[j].triggers[t], message)
    ensures FindEntry(kb, message).Some? && FindEntry(kb, message).value <= i
  {
    var inner, outer := kb[i].triggers[u], kb[j].triggers[t];
    var q :| OccursAt(inner, outer, q);
    var p :| OccursAt(outer, message, p);
    OccursAtCompose(inner, outer, message, q, p);
    MatchingEntryIsFoundOrShadowed(kb, message, i);
  }

  /** The first match when the answer does not come from the first `n` entries: positions shifted by `n`. */
  function Shift(r: Option<nat>, n: nat): Option<nat> {
    match r
    case None => None
    case Some(i) => Some(n + i)
  }

  /** Scanning a concatenated table: a match in the first part wins, otherwise the
      second part is scanned with its positions offset by the first part's length. */
  lemma {:induction false} FindEntryAppend(a: seq<Entry>, b: seq<Entry>, message: string)
    ensures FindEntry(a, message).Some? ==> FindEntry(a + b, message) == FindEntry(a, message)
    ensures FindEntry(a, message).None? ==> FindEntry(a + b, message) == Shift(FindEntry(b, message), |a|)
    decreases |a|
  {
    if |a| == 0 {
      assert a + b == b;
    } else {
      assert (a + b)[0] == a[0];
      assert (a + b)[1..] == a[1..] + b;
      FindEntryAppend(a[1..], b, message);
    }
  }

  /** A message made only of white space (the empty message included) gets the fallback. */
  lemma BlankMessageGetsFallback(message: string)
    requires IsBlank(message)
    ensures Reply(message) == Fallback
  {
    var lower := ToLower(message);
    ToLowerKeepsBlank(message);
    KnowledgeBaseWellFormed();
    forall i, k | 0 <= i < |KnowledgeBase| && 0 <= k < |KnowledgeBase[i].triggers|
      ensures !Occurs(KnowledgeBase[i].triggers[k], lower)
    {
      NoOccurrenceInBlank(KnowledgeBase[i].triggers[k], lower);
    }
  }

  /** Case does not matter: a trigger spelled with any capitalisation in the
      message makes the table answer, by that entry or an earlier one. */
  lemma TriggerFoundInAnyCase(kb: seq<Entry>, message: string, i: nat, k: nat, p: nat)
    requires i < |kb| && k < |kb[i].triggers|
    requires p + |kb[i].triggers[k]| <= |message|
    requires ToLower(message[p..p + |kb[i].triggers[k]|]) == kb[i].triggers[k]
    ensures FindEntry(kb, ToLower(message)).Some? && FindEntry(kb, ToLower(message)).value <= i
  {
    var t := kb[i].triggers[k];
    ToLowerSlice(message, p, p + |t|);
    assert OccursAt(t, ToLower(message), p);
    MatchingEntryIsFoundOrShadowed(kb, ToLower(message), i);
  }

  /** The triggers are lower-case, so one written exactly as in the table anywhere in
      the raw message still makes the table answer after lower-casing, by that entry
      or an earlier one. */
  lemma VerbatimTriggerSelects(message: string, i: nat, k: nat, p: nat)
    requires i < |KnowledgeBase| && k < |KnowledgeBase[i].triggers|
    requires OccursAt(KnowledgeBase[i].triggers[k], message, p)
    ensures FindEntry(KnowledgeBase, ToLower(message)).Some?
    ensures FindEntry(KnowledgeBase, ToLower(message)).value <= i
  {
    var t := KnowledgeBase[i].triggers[k];
    KnowledgeBaseWellFormed();
    assert WellFormedTrigger(t);
    ToLowerFixesLowerCase(t);
    TriggerFoundInAnyCase(KnowledgeBase, message, i, k, p);
  }

  /** Messages that differ only in the case of ASCII letters get the same reply. */
  lemma SameReplyIgnoringCase(a: string, b: string)
    requires |a| == |b|
    requires forall i :: 0 <= i < |a| ==> ToLowerChar(a[i]) == ToLowerChar(b[i])
    ensures Reply(a) == Reply(b)
  {
    assert ToLower(a) == ToLower(b);
  }

  /** Any message mentioning "maintenance" is answered by the AI entry (position 12) or an
      earlier one, because "maintenance" contains "ai": the support entry's
      "maintenance" trigger never decides. */
  lemma MaintenanceNeverReachesSupport(message: string)
    requires Occurs("maintenance", ToLower(message))
    ensures FindEntry(KnowledgeBase, ToLower(message)).Some?
    ensures FindEntry(KnowledgeBase, ToLower(message)).value <= 12
  {
    assert KnowledgeBase[12].triggers[0] == "ai";
    assert KnowledgeBase[17].triggers[1] == "maintenance";
    assert OccursAt("ai", "maintenance", 1);
    ContainedTriggerIsShadowed(KnowledgeBase, ToLower(message), 12, 0, 17, 1);
  }

  /** Likewise "email" contains "ai", so the contact entry's "email" trigger never decides. */
  lemma EmailNeverReachesContact(message: string)
    requires Occurs("email", ToLower(message))
    ensures FindEntry(KnowledgeBase, ToLower(message)).Some?
    ensures FindEntry(KnowledgeBase, ToLower(message)).value <= 12
  {
    assert KnowledgeBase[12].triggers[0] == "ai";
    assert KnowledgeBase[15].triggers[1] == "email";
    assert OccursAt("ai", "email", 2);
    ContainedTriggerIsShadowed(KnowledgeBase, ToLower(message), 12, 0, 15, 1);
  }

  /** Where the topics the examples below mention sit in the table. */
  lemma TopicPositions()
    ensures |KnowledgeBase| == 18
    ensures KnowledgeBase[3].topic == Modbus && KnowledgeBase[12].topic == Ai
    ensures KnowledgeBase[15].topic == Contact && KnowledgeBase[17].topic == Support
  {
  }

  /** The reply is the answer of the entry the scan of the lower-cased message selects. */
  lemma ReplyOfSelectedEntry(message: string, i: nat)
    requires FindEntry(KnowledgeBase, ToLower(message)) == Some(i)
    ensures i < |KnowledgeBase| && Reply(message) == Answer(KnowledgeBase[i].topic)
  {
  }

  /** No entry of `kb` has a trigger the message includes. */
  predicate NoneIncluded(kb: seq<Entry>, message: string) {
    forall j :: 0 <= j < |kb| ==> !AnyTriggerIncluded(kb[j].triggers, message)
  }

  /** When no entry's `some` check succeeds, `find` comes back empty. */
  lemma NoneIncludedFindsNothing(kb: seq<Entry>, message: string)
    requires NoneIncluded(kb, message)
    ensures FindEntry(kb, message) == None
  {
    if FindEntry(kb, message).Some? {
      AnyTriggerIncludedIsMatch(kb[FindEntry(kb, message).value], message);
    }
  }

  lemma MaintenanceMissesIdentityAndProducts()
    ensures FindEntry(CompanyIdentity, "maintenance") == None
    ensures FindEntry(Products, "maintenance") == None
  {
    assert !AnyTriggerIncluded(CompanyIdentity[0].triggers, "maintenance");
    assert !AnyTriggerIncluded(CompanyIdentity[1].triggers, "maintenance");
    assert !AnyTriggerIncluded(Products[0].triggers, "maintenance");
    NoneIncludedFindsNothing(CompanyIdentity, "maintenance");
    NoneIncludedFindsNothing(Products, "maintenance");
  }

  lemma MaintenanceMissesTeachingMode()
    ensures FindEntry(TeachingMode, "maintenance") == None
  {
    assert !AnyTriggerIncluded(TeachingMode[0].triggers, "maintenance");
    assert !AnyTriggerIncluded(TeachingMode[1].triggers, "maintenance");
    assert !AnyTriggerIncluded(TeachingMode[2].triggers, "maintenance");
    NoneIncludedFindsNothing(TeachingMode, "maintenance");
  }

  lemma MaintenanceMissesStrategyServices()
    ensures FindEntry(StrategyServices, "maintenance") == None
  {
    assert !AnyTriggerIncluded(StrategyServices[0].triggers, "maintenance");
    assert !IncludesFrom("maintenance", "planning", 2);
    assert !AnyTriggerIncluded(StrategyServices[1].triggers, "maintenance");
    NoneIncludedFindsNothing(StrategyServices, "maintenance");
  }

  lemma MaintenanceMissesMobileApps()
    ensures !AnyTriggerIncluded(CustomDevelopment[1].triggers, "maintenance")
  {
    assert !IncludesFrom("maintenance", "ios", 5);
  }

  lemma MaintenanceMissesCustomDevelopment()
    ensures FindEntry(CustomDevelopment, "maintenance") == None
  {
    MaintenanceMissesMobileApps();
    assert !AnyTriggerIncluded(CustomDevelopment[0].triggers, "maintenance");
    assert !AnyTriggerIncluded(CustomDevelopment[2].triggers, "maintenance");
    NoneIncludedFindsNothing(CustomDevelopment, "maintenance");
  }

  lemma MaintenanceFindsAiInItsGroup()
    ensures FindEntry(AutomationAndAi, "maintenance") == Some(1)
  {
    assert !AnyTriggerIncluded(AutomationAndAi[0].triggers, "maintenance");
    assert AnyTriggerIncluded(AutomationAndAi[1].triggers, "maintenance");
    SelectsFirstIncluded(AutomationAndAi, "maintenance", 1);
  }

  /** The support entry (position 17) matches "maintenance", its own trigger. */
  lemma SupportMatchesMaintenance()
    ensures Matches(KnowledgeBase[17], "maintenance") && KnowledgeBase[17].topic == Support
  {
    TopicPositions();
    var m := "maintenance";
    assert KnowledgeBase[17].triggers[1] == m;
    assert OccursAt(m, m, 0);
  }

  /** "maintenance" selects the AI entry (position 12), although the support entry
      (position 17) matches it too: the earlier entry wins. */
  lemma MaintenanceSelectsAi()
    ensures FindEntry(KnowledgeBase, "maintenance") == Some(12)
    ensures KnowledgeBase[12].topic == Ai
    ensures Matches(KnowledgeBase[17], "maintenance") && KnowledgeBase[17].topic == Support
  {
    var m := "maintenance";
    SupportMatchesMaintenance();
    MaintenanceMissesIdentityAndProducts();
    MaintenanceMissesTeachingMode();
    MaintenanceMissesStrategyServices();
    MaintenanceMissesCustomDevelopment();
    MaintenanceFindsAiInItsGroup();
    var p1 := CompanyIdentity + Products;
    var p2 := p1 + TeachingMode;
    var p3 := p2 + StrategyServices;
    var p4 := p3 + CustomDevelopment;
    var p5 := p4 + AutomationAndAi;
    var p6 := p5 + SalesAndBusiness;
    FindEntryAppend(CompanyIdentity, Products, m);
    FindEntryAppend(p1, TeachingMode, m);
    FindEntryAppend(p2, StrategyServices, m);
    FindEntryAppend(p3, CustomDevelopment, m);
    FindEntryAppend(p4, AutomationAndAi, m);
    FindEntryAppend(p5, SalesAndBusiness, m);
    FindEntryAppend(p6, Faqs, m);
    assert KnowledgeBase == p6 + Faqs;
    TopicPositions();
  }


  lemma ExplainModbusMissesIdentity()
    ensures !AnyTriggerIncluded(CompanyIdentity[0].triggers, "explain modbus")
  {
    assert !IncludesFrom("explain modbus", "company", 4);
  }

  lemma ExplainModbusMissesLocation()
    ensures !AnyTriggerIncluded(CompanyIdentity[1].triggers, "explain modbus")
  {
    assert !IncludesFrom("explain modbus", "location", 4);
    assert !IncludesFrom("explain modbus", "office", 4);
  }

  lemma ExplainModbusMissesCompanyIdentity()
    ensures FindEntry(CompanyIdentity, "explain modbus") == None
  {
    ExplainModbusMissesIdentity();
    ExplainModbusMissesLocation();
    NoneIncludedFindsNothing(CompanyIdentity, "explain modbus");
  }

  lemma ExplainModbusMissesProducts()
    ensures FindEntry(Products, "explain modbus") == None
  {
    assert !IncludesFrom("explain modbus", "opsuite", 4);
    assert !AnyTriggerIncluded(Products[0].triggers, "explain modbus");
    NoneIncludedFindsNothing(Products, "explain modbus");
  }

  lemma ExplainModbusFindsModbusInItsGroup()
    ensures FindEntry(TeachingMode, "explain modbus") == Some(0)
  {
    assert IncludesFrom("explain modbus", "modbus", 4);
    assert AnyTriggerIncluded(TeachingMode[0].triggers, "explain modbus");
    SelectsFirstIncluded(TeachingMode, "explain modbus", 0);
  }

  /** The AI entry (position 12) matches "explain modbus": "ai" occurs in "explain". */
  lemma AiMatchesExplainModbus()
    ensures Matches(KnowledgeBase[12], "explain modbus") && KnowledgeBase[12].topic == Ai
  {
    TopicPositions();
    assert KnowledgeBase[12].triggers[0] == "ai";
    assert OccursAt("ai", "explain modbus", 4);
  }

  /** "explain modbus" selects the Modbus entry (position 3), although "explain"
      contains the AI entry's trigger "ai": the earlier entry wins. */
  lemma ExplainModbusSelectsModbus()
    ensures FindEntry(KnowledgeBase, "explain modbus") == Some(3)
    ensures KnowledgeBase[3].topic == Modbus
    ensures Matches(KnowledgeBase[12], "explain modbus") && KnowledgeBase[12].topic == Ai
  {
    var m := "explain modbus";
    AiMatchesExplainModbus();
    ExplainModbusMissesCompanyIdentity();
    ExplainModbusMissesProducts();
    ExplainModbusFindsModbusInItsGroup();
    var p1 := CompanyIdentity + Products;
    var p2 := p1 + TeachingMode;
    var p3 := p2 + StrategyServices;
    var p4 := p3 + CustomDevelopment;
    var p5 := p4 + AutomationAndAi;
    var p6 := p5 + SalesAndBusiness;
    FindEntryAppend(CompanyIdentity, Products, m);
    FindEntryAppend(p1, TeachingMode, m);
    FindEntryAppend(p2, StrategyServices, m);
    FindEntryAppend(p3, CustomDevelopment, m);
    FindEntryAppend(p4, AutomationAndAi, m);
    FindEntryAppend(p5, SalesAndBusiness, m);
    FindEntryAppend(p6, Faqs, m);
    assert KnowledgeBase == p6 + Faqs;
    TopicPositions();
  }

  /** "maintenance" is already in lower case. */
  lemma MaintenanceIsLowerCase()
    ensures ToLower("maintenance") == "maintenance"
  {
    ToLowerFixesLowerCase("maintenance");
  }

  /** "explain modbus" is already in lower case. */
  lemma ExplainModbusIsLowerCase()
    ensures ToLower("explain modbus") == "explain modbus"
  {
    ToLowerFixesLowerCase("explain modbus");
  }

  /** The message "maintenance" is answered with the AI entry's text. */
  lemma MaintenanceReply()
    ensures Reply("maintenance") == Answer(Ai)
  {
    MaintenanceIsLowerCase();
    MaintenanceSelectsAi();
    ReplyOfSelectedEntry("maintenance", 12);
  }

  /** The message "explain modbus" is answered with the Modbus entry's text. */
  lemma ExplainModbusReply()
    ensures Reply("explain modbus") == Answer(Modbus)
  {
    ExplainModbusIsLowerCase();
    ExplainModbusSelectsModbus();
    ReplyOfSelectedEntry("explain modbus", 3);
  }
}
