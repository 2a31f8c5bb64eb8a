/**
 * What the handler guarantees, stated about `Router.Step` (and so, through
 * `Bot.HandleUpdate`'s contract, about the bot): update precedence, the session
 * updates, the safety gate's short circuit, when the classifier is consulted, the
 * flow override, the canned caregiving replies and the layout of composed replies.
 */
module RouterFacts {
  import opened Text
  import opened Options
  import opened Safety
  import opened Intents
  import opened Labels
  import opened OpenAI
  import opened Compose
  import opened Router

  /** The update is a text message that gets past `/start` and the safety gate. */
  predicate ReachesResolution(u: Update) {
    && u.callbackQuery.None?
    && Incoming(u).Some?
    && var t := Incoming(u).value.1;
       t != "/start" && !IsEmergency(t) && !IsOffLimits(t)
  }

  predicate AsksClassifier(calls: seq<LlmCall>) {
    exists k :: 0 <= k < |calls| && calls[k].ClassifyCall?
  }

  /**
   * Precedence of update kinds: a button tap is handled whatever message fields the
   * update also carries; a message hides an edited message; an update with neither
   * does nothing.
   */
  lemma UpdatePrecedence(st: Sessions, u: Update, cls: Outcome<Intent>, cmp: Outcome<Option<string>>,
                         m: Option<Message>, e: Option<Message>)
    ensures Kind(u) == CallbackKind ==>
              Step(st, u.(message := m, editedMessage := e), cls, cmp) == Step(st, u, cls, cmp)
    ensures Kind(u) == MessageKind ==>
              Step(st, u.(editedMessage := e), cls, cmp) == Step(st, u, cls, cmp)
    ensures Kind(u) == UnknownKind ==> Step(st, u, cls, cmp) == Effect(st, [], [])
  {
  }

  /** A text message is handled by the text chain, on its chat and its trimmed text. */
  lemma TextMessageStep(st: Sessions, u: Update, chat: ChatId, t: string, cls: Outcome<Intent>,
                        cmp: Outcome<Option<string>>)
    requires u.callbackQuery.None? && Incoming(u) == Some((chat, t))
    ensures Step(st, u, cls, cmp) == GateStep(Labelled(st, chat, t), chat, t, cls, cmp)
  {
  }

  /**
   * A `flow:<x>` button sets the chat's session to exactly `x` (the text up to the next
   * colon, if any), acknowledges the tap and sends the flow's prompt; nothing else.
   */
  lemma FlowButtonSetsSession(st: Sessions, u: Update, id: string, chat: ChatId, x: string, rest: string,
                              cls: Outcome<Intent>, cmp: Outcome<Option<string>>)
    requires ':' !in x && (rest == [] || rest[0] == ':')
    requires u.callbackQuery == Some(CallbackQuery(id, Some(chat), Some("flow:" + x + rest)))
    ensures Step(st, u, cls, cmp) == Effect(st[chat := x], [AnswerCallback(id), SendMessage(chat, FlowPrompt(x))], [])
  {
    var data := "flow:" + x + rest;
    assert data[..5] == "flow:";
    assert data[5..] == x + rest;
    FieldOf(x, ':', rest);
  }

  /** A button without the `flow:` prefix is only acknowledged: the sessions stay as they were. */
  lemma OtherButtonKeepsState(st: Sessions, u: Update, cls: Outcome<Intent>, cmp: Outcome<Option<string>>)
    requires u.callbackQuery.Some? && !StartsWith(u.callbackQuery.value.data.GetOr(""), "flow:")
    ensures var cq := u.callbackQuery.value;
      Step(st, u, cls, cmp) == Effect(st, if cq.chat.Some? then [AnswerCallback(cq.id)] else [], [])
  {
  }

  /** The label tests change at most the session of the message's own chat. */
  lemma LabelledOnlyChat(st: Sessions, chat: ChatId, t: string)
    ensures Labelled(st, chat, t) - {chat} == st - {chat}
  {
    if LabelFlow(t).Some? {
      assert Labelled(st, chat, t) == st[chat := LabelFlow(t).value];
    }
  }

  lemma GateStart(st: Sessions, chat: ChatId, cls: Outcome<Intent>, cmp: Outcome<Option<string>>)
    ensures GateStep(st, chat, "/start", cls, cmp) == Effect(st - {chat}, [SendMessage(chat, Intro)], [])
  {
  }

  /** `/start` (with any surrounding white space) deletes the chat's session and sends the introduction. */
  lemma StartResetsSession(st: Sessions, u: Update, chat: ChatId, cls: Outcome<Intent>, cmp: Outcome<Option<string>>)
    requires u.callbackQuery.None? && Incoming(u) == Some((chat, "/start"))
    ensures Step(st, u, cls, cmp) == Effect(st - {chat}, [SendMessage(chat, Intro)], [])
  {
    TextMessageStep(st, u, chat, "/start", cls, cmp);
    var st1 := Labelled(st, chat, "/start");
    GateStart(st1, chat, cls, cmp);
    LabelledOnlyChat(st, chat, "/start");
  }

  /**
   * A text message other than `/start` leaves exactly the session the label tests set:
   * a crying/sleep, nutrition, caregiving or conflicting-advice label stores `cry`,
   * `nutrition`, `caregiver` or `advice` for the chat, and any other text keeps the sessions.
   */
  lemma LabelSetsSession(st: Sessions, u: Update, chat: ChatId, t: string, cls: Outcome<Intent>,
                         cmp: Outcome<Option<string>>)
    requires u.callbackQuery.None? && Incoming(u) == Some((chat, t)) && t != "/start"
    ensures Step(st, u, cls, cmp).state == Labelled(st, chat, t)
    ensures IsCryLabel(t) ==> Step(st, u, cls, cmp).state == st[chat := "cry"]
    ensures IsNutritionLabel(t) ==> Step(st, u, cls, cmp).state == st[chat := "nutrition"]
    ensures IsCaregivingLabel(t) ==> Step(st, u, cls, cmp).state == st[chat := "caregiver"]
    ensures IsAdviceLabel(t) ==> Step(st, u, cls, cmp).state == st[chat := "advice"]
    ensures LabelFlow(t).None? ==> Step(st, u, cls, cmp).state == st
  {
    TextMessageStep(st, u, chat, t, cls, cmp);
    var st1 := Labelled(st, chat, t);
    if !IsEmergency(t) && !IsOffLimits(t) {
      ResolveKeepsState(st1, chat, t, cls, cmp);
    }
    LabelFlowSelects(t);
  }

  /** Resolution and routing never change the sessions. */
  lemma ResolveKeepsState(st: Sessions, chat: ChatId, t: string, cls: Outcome<Intent>, cmp: Outcome<Option<string>>)
    ensures ResolveStep(st, chat, t, cls, cmp).state == st
  {
  }

  lemma GateOnlyChat(st: Sessions, chat: ChatId, t: string, cls: Outcome<Intent>, cmp: Outcome<Option<string>>)
    ensures GateStep(st, chat, t, cls, cmp).state - {chat} == st - {chat}
  {
    if t != "/start" && !IsEmergency(t) && !IsOffLimits(t) {
      ResolveKeepsState(st, chat, t, cls, cmp);
    }
  }

  /**
   * An update changes at most the session of its own chat: every other chat's entry is
   * kept, and an update whose chat is unknown changes nothing.
   */
  lemma StepTouchesOnlyItsChat(st: Sessions, u: Update, cls: Outcome<Intent>, cmp: Outcome<Option<string>>)
    ensures TargetChat(u).None? ==> Step(st, u, cls, cmp).state == st
    ensures TargetChat(u).Some? ==>
              Step(st, u, cls, cmp).state - {TargetChat(u).value} == st - {TargetChat(u).value}
  {
    if u.callbackQuery.None? && Incoming(u).Some? {
      var (chat, t) := Incoming(u).value;
      TextMessageStep(st, u, chat, t, cls, cmp);
      var st1 := Labelled(st, chat, t);
      LabelledOnlyChat(st, chat, t);
      GateOnlyChat(st1, chat, t, cls, cmp);
    }
  }

  /** An emergency cue gets the fixed "call 995" reply and nothing else: no classifier, no composer. */
  lemma EmergencyShortCircuit(st: Sessions, u: Update, chat: ChatId, t: string, cls: Outcome<Intent>,
                              cmp: Outcome<Option<string>>)
    requires u.callbackQuery.None? && Incoming(u) == Some((chat, t))
    requires t != "/start" && IsEmergency(t)
    ensures Step(st, u, cls, cmp) == Effect(Labelled(st, chat, t), [SendMessage(chat, EmergencyReply)], [])
  {
    TextMessageStep(st, u, chat, t, cls, cmp);
  }

  /** An off-limits topic that is not an emergency gets the fixed SOS/IMH reply and nothing else. */
  lemma OffLimitsShortCircuit(st: Sessions, u: Update, chat: ChatId, t: string, cls: Outcome<Intent>,
                              cmp: Outcome<Option<string>>)
    requires u.callbackQuery.None? && Incoming(u) == Some((chat, t))
    requires t != "/start" && !IsEmergency(t) && IsOffLimits(t)
    ensures Step(st, u, cls, cmp) == Effect(Labelled(st, chat, t), [SendMessage(chat, OffLimitsReply)], [])
  {
    TextMessageStep(st, u, chat, t, cls, cmp);
  }

  /** Routing asks only the composer, and only for intents other than the caregiving ones. */
  lemma RouteCalls(st: Sessions, chat: ChatId, t: string, resolved: Intent, cmp: Outcome<Option<string>>)
    ensures var i := ApplyFlow(ActiveFlow(st, chat), t, resolved);
      RouteStep(st, chat, t, resolved, cmp).calls ==
        if i in {CaregivingFind, CaregivingHelper} then [] else [ComposeCall(i, t, BaseSteps(i))]
  {
  }

  /** Resolution asks the classifier exactly when the keywords give `Unknown`, and then first. */
  lemma ResolveCalls(st: Sessions, chat: ChatId, t: string, cls: Outcome<Intent>, cmp: Outcome<Option<string>>)
    ensures AsksClassifier(ResolveStep(st, chat, t, cls, cmp).calls) <==> RuleIntent(t) == Unknown
    ensures RuleIntent(t) == Unknown ==>
              ResolveStep(st, chat, t, cls, cmp).calls != [] && ResolveStep(st, chat, t, cls, cmp).calls[0] == ClassifyCall(t)
  {
    var calls := ResolveStep(st, chat, t, cls, cmp).calls;
    if RuleIntent(t) == Unknown {
      assert calls[0].ClassifyCall?;
    } else {
      RouteCalls(st, chat, t, RuleIntent(t), cmp);
      assert !AsksClassifier(calls);
    }
  }

  /** `/start` and the safety gate make no requests at all. */
  lemma GateCalls(st: Sessions, chat: ChatId, t: string, cls: Outcome<Intent>, cmp: Outcome<Option<string>>)
    ensures t == "/start" || IsEmergency(t) || IsOffLimits(t) ==> GateStep(st, chat, t, cls, cmp).calls == []
    ensures t != "/start" && !IsEmergency(t) && !IsOffLimits(t) ==>
              GateStep(st, chat, t, cls, cmp) == ResolveStep(st, chat, t, cls, cmp)
  {
  }

  /**
   * The classifier is consulted exactly when a message gets past the safety gate and
   * the keyword classifier gives `Unknown`; then it is the first request made.
   */
  lemma ClassifierOnlyWhenUnknown(st: Sessions, u: Update, cls: Outcome<Intent>, cmp: Outcome<Option<string>>)
    ensures AsksClassifier(Step(st, u, cls, cmp).calls) <==>
              ReachesResolution(u) && RuleIntent(Incoming(u).value.1) == Unknown
    ensures ReachesResolution(u) && RuleIntent(Incoming(u).value.1) == Unknown ==>
              Step(st, u, cls, cmp).calls[0] == ClassifyCall(Incoming(u).value.1)
  {
    if u.callbackQuery.None? && Incoming(u).Some? {
      var (chat, t) := Incoming(u).value;
      var st1 := Labelled(st, chat, t);
      TextMessageStep(st, u, chat, t, cls, cmp);
      GateCalls(st1, chat, t, cls, cmp);
      ResolveCalls(st1, chat, t, cls, cmp);
    }
  }

  /**
   * When the keywords resolve the intent, the classifier's answer does not matter; when
   * they do not and the classifier fails on quota, the quota notice is the only reply
   * and the composer is never asked.
   */
  lemma ClassifierQuotaStops(st: Sessions, u: Update, cls: Outcome<Intent>, cmp: Outcome<Option<string>>)
    requires ReachesResolution(u) && RuleIntent(Incoming(u).value.1) == Unknown
    requires cls.Threw? && (IsQuotaExhausted(cls.error) || IsQuotaSignal(cls.error))
    ensures var (chat, t) := Incoming(u).value;
      Step(st, u, cls, cmp) == Effect(Labelled(st, chat, t), [SendMessage(chat, QuotaReply)], [ClassifyCall(t)])
  {
    var (chat, t) := Incoming(u).value;
    TextMessageStep(st, u, chat, t, cls, cmp);
    QuotaSignalIff(cls);
  }

  /** A classifier failure that is not about quota ends the update silently. */
  lemma ClassifierOtherErrorSilent(st: Sessions, u: Update, cls: Outcome<Intent>, cmp: Outcome<Option<string>>)
    requires ReachesResolution(u) && RuleIntent(Incoming(u).value.1) == Unknown
    requires cls.Threw? && !IsQuotaExhausted(cls.error) && !IsQuotaSignal(cls.error)
    ensures var (chat, t) := Incoming(u).value;
      Step(st, u, cls, cmp) == Effect(Labelled(st, chat, t), [], [ClassifyCall(t)])
  {
    var (chat, t) := Incoming(u).value;
    TextMessageStep(st, u, chat, t, cls, cmp);
    QuotaSignalIff(cls);
  }

  /** With the keywords deciding, the classifier's outcome is irrelevant. */
  lemma KnownIntentIgnoresClassifier(st: Sessions, u: Update, cls1: Outcome<Intent>, cls2: Outcome<Intent>,
                                     cmp: Outcome<Option<string>>)
    requires ReachesResolution(u) && RuleIntent(Incoming(u).value.1) != Unknown
    ensures Step(st, u, cls1, cmp) == Step(st, u, cls2, cmp)
  {
    var (chat, t) := Incoming(u).value;
    TextMessageStep(st, u, chat, t, cls1, cmp);
    TextMessageStep(st, u, chat, t, cls2, cmp);
  }

  /**
   * An active flow decides the reply: whatever intent the keywords or the classifier
   * produced, the update does the same.
   */
  lemma ActiveFlowDecidesReply(st: Sessions, chat: ChatId, t: string, r1: Intent, r2: Intent,
                               cmp: Outcome<Option<string>>)
    requires ActiveFlow(st, chat) in {Some("cry"), Some("nutrition"), Some("caregiver"), Some("advice")}
    ensures RouteStep(st, chat, t, r1, cmp) == RouteStep(st, chat, t, r2, cmp)
  {
    ApplyFlowOverrides(ActiveFlow(st, chat), t, r1, r2);
  }

  /** Without an active flow (or with an unknown one), the resolved intent is used as it is. */
  lemma NoFlowKeepsIntent(st: Sessions, chat: ChatId, t: string, r: Intent, cmp: Outcome<Option<string>>)
    requires ActiveFlow(st, chat) !in {Some("cry"), Some("nutrition"), Some("caregiver"), Some("advice")}
    requires r !in {CaregivingFind, CaregivingHelper}
    ensures RouteStep(st, chat, t, r, cmp).calls == [ComposeCall(r, t, BaseSteps(r))]
  {
    ApplyFlowOverrides(ActiveFlow(st, chat), t, r, r);
  }

  /**
   * The caregiving intents get exactly their canned block and never ask the composer,
   * whatever the composer would have answered.
   */
  lemma CaregivingUsesBlocks(st: Sessions, chat: ChatId, t: string, resolved: Intent,
                             cmp1: Outcome<Option<string>>, cmp2: Outcome<Option<string>>)
    requires ApplyFlow(ActiveFlow(st, chat), t, resolved) in {CaregivingFind, CaregivingHelper}
    ensures RouteStep(st, chat, t, resolved, cmp1) == RouteStep(st, chat, t, resolved, cmp2)
    ensures RouteStep(st, chat, t, resolved, cmp1).calls == []
    ensures RouteStep(st, chat, t, resolved, cmp1).sent ==
              [SendMessage(chat, if ApplyFlow(ActiveFlow(st, chat), t, resolved) == CaregivingFind
                                 then BlockInfantcare else BlockHelper)]
  {
  }

  /**
   * In the caregiver flow, a message about a helper gets the helper block and any other
   * message the infant-care block (once past the gate and the classifier).
   */
  lemma CaregiverFlowSplitsOnHelper(st: Sessions, chat: ChatId, t: string, resolved: Intent, cmp: Outcome<Option<string>>)
    requires ActiveFlow(st, chat) == Some("caregiver")
    ensures RouteStep(st, chat, t, resolved, cmp) ==
              Effect(st, [SendMessage(chat, if MentionsHelper(t) then BlockHelper else BlockInfantcare)], [])
  {
  }

  /**
   * Any other intent gets one composed reply: the model's text (or the default opening),
   * the intent's links when it has any, and the disclaimer at the end; a quota failure
   * gets the quota notice, and any other failure no reply.
   */
  lemma ComposedReply(st: Sessions, chat: ChatId, t: string, resolved: Intent, cmp: Outcome<Option<string>>)
    requires ApplyFlow(ActiveFlow(st, chat), t, resolved) !in {CaregivingFind, CaregivingHelper}
    ensures var i := ApplyFlow(ActiveFlow(st, chat), t, resolved);
      var e := RouteStep(st, chat, t, resolved, cmp);
      && e.calls == [ComposeCall(i, t, BaseSteps(i))]
      && (cmp.Returned? ==> e.sent == [SendMessage(chat, Assemble(i, cmp.value))])
      && (cmp.Threw? && (IsQuotaExhausted(cmp.error) || IsQuotaSignal(cmp.error)) ==>
            e.sent == [SendMessage(chat, QuotaReply)])
      && (cmp.Threw? && !IsQuotaExhausted(cmp.error) && !IsQuotaSignal(cmp.error) ==> e.sent == [])
  {
    var i := ApplyFlow(ActiveFlow(st, chat), t, resolved);
    if cmp.Threw? {
      QuotaSignalIff<Option<string>>(cmp);
      assert ComposeAI(i, cmp) == CallOpenAI(Threw(cmp.error));
    }
  }

  /** A composed reply always ends with the disclaimer. */
  lemma ComposedReplyEndsWithDisclaimer(i: Intent, content: Option<string>)
    ensures var r := Assemble(i, content);
      |r| >= |Disclaimer| && r[|r| - |Disclaimer|..] == Disclaimer
  {
    ReplyLayout(i, content);
  }

  /**
   * With the cry, nutrition or advice flow active, the composer is asked about that
   * flow's intent, with that intent's base steps, whatever was resolved before.
   */
  lemma FlowComposesItsIntent(st: Sessions, chat: ChatId, t: string, resolved: Intent, cmp: Outcome<Option<string>>)
    requires ActiveFlow(st, chat) in {Some("cry"), Some("nutrition"), Some("advice")}
    ensures ActiveFlow(st, chat) == Some("cry") ==>
              RouteStep(st, chat, t, resolved, cmp).calls == [ComposeCall(CryingSleep, t, SoothingSteps)]
    ensures ActiveFlow(st, chat) == Some("nutrition") ==>
              RouteStep(st, chat, t, resolved, cmp).calls == [ComposeCall(Nutrition, t, NutritionSteps)]
    ensures ActiveFlow(st, chat) == Some("advice") ==>
              RouteStep(st, chat, t, resolved, cmp).calls == [ComposeCall(AdviceConflict, t, ResolverSteps)]
  {
    ApplyFlowOverrides(ActiveFlow(st, chat), t, resolved, resolved);
  }

  /**
   * Every reply routing sends is the quota notice or ends with the disclaimer: the canned
   * blocks and the composed replies all carry it.
   */
  lemma RoutedReplyEndsWithDisclaimer(st: Sessions, chat: ChatId, t: string, resolved: Intent,
                                      cmp: Outcome<Option<string>>, k: nat)
    requires k < |RouteStep(st, chat, t, resolved, cmp).sent|
    ensures var m := RouteStep(st, chat, t, resolved, cmp).sent[k];
      m.SendMessage? &&
      (m.text == QuotaReply ||
       (|m.text| >= |Disclaimer| && m.text[|m.text| - |Disclaimer|..] == Disclaimer))
  {
    var i := ApplyFlow(ActiveFlow(st, chat), t, resolved);
    BlocksEndWithDisclaimer();
    if i !in {CaregivingFind, CaregivingHelper} {
      ComposedReply(st, chat, t, resolved, cmp);
      if cmp.Returned? {
        ComposedReplyEndsWithDisclaimer(i, cmp.value);
      }
    }
  }

  /** At most one message, and only to the given chat. */
  predicate SingleReply(sent: seq<Outgoing>, chat: ChatId) {
    |sent| <= 1 && forall k :: 0 <= k < |sent| ==> sent[k].SendMessage? && sent[k].chat == chat
  }

  lemma RouteSingleReply(st: Sessions, chat: ChatId, t: string, r: Intent, cmp: Outcome<Option<string>>)
    ensures SingleReply(RouteStep(st, chat, t, r, cmp).sent, chat)
  {
  }

  lemma GateSingleReply(st: Sessions, chat: ChatId, t: string, cls: Outcome<Intent>, cmp: Outcome<Option<string>>)
    ensures SingleReply(GateStep(st, chat, t, cls, cmp).sent, chat)
  {
    if t != "/start" && !IsEmergency(t) && !IsOffLimits(t) {
      var r := RuleIntent(t);
      if r != Unknown {
        RouteSingleReply(st, chat, t, r, cmp);
      } else if CallOpenAI(cls).Returned? {
        RouteSingleReply(st, chat, t, CallOpenAI(cls).value, cmp);
      }
    }
  }

  /**
   * A text message gets at most one message back, in its own chat; a button tap is
   * acknowledged first and may be followed by one prompt to the tap's chat.
   */
  lemma AtMostOneReply(st: Sessions, u: Update, cls: Outcome<Intent>, cmp: Outcome<Option<string>>)
    ensures u.callbackQuery.None? && Incoming(u).Some? ==> SingleReply(Step(st, u, cls, cmp).sent, Incoming(u).value.0)
    ensures u.callbackQuery.None? && Incoming(u).None? ==> Step(st, u, cls, cmp).sent == []
    ensures u.callbackQuery.Some? ==> |Step(st, u, cls, cmp).sent| <= 2
    ensures u.callbackQuery.Some? && Step(st, u, cls, cmp).sent != [] ==>
              Step(st, u, cls, cmp).sent[0] == AnswerCallback(u.callbackQuery.value.id)
    ensures u.callbackQuery.Some? && |Step(st, u, cls, cmp).sent| == 2 ==>
              Step(st, u, cls, cmp).sent[1].SendMessage? && Some(Step(st, u, cls, cmp).sent[1].chat) == TargetChat(u)
  {
    if u.callbackQuery.None? && Incoming(u).Some? {
      var (chat, t) := Incoming(u).value;
      TextMessageStep(st, u, chat, t, cls, cmp);
      GateSingleReply(Labelled(st, chat, t), chat, t, cls, cmp);
    }
  }
}
