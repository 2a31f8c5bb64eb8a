/**
 * The webhook handler: one update at a time, against the per-chat session map.
 *
 * A button tap (`callback_query`) is acknowledged and, for a `flow:<x>` payload, sets
 * the chat's flow to `x` and sends that flow's prompt. A text message (`message`, or
 * else `edited_message`) runs the decision chain: reply-keyboard labels set the flow,
 * `/start` clears the session, the safety gate answers emergencies and off-limits
 * topics, and otherwise the intent is resolved (keywords, then the classifier), the
 * active flow overrides it, and the reply is a canned caregiving block or a composed one.
 *
 * The two completion requests are oracles: their outcomes are arguments of the step.
 * Outgoing Telegram calls are appended to an outbox, completion requests to a call log.
 */
module Router {
  import opened Text
  import opened Options
  import opened Safety
  import opened Intents
  import opened Labels
  import opened OpenAI
  import opened Compose

  type ChatId = int

  /** The session map: a chat's active flow, when it has one. */
  type Sessions = map<ChatId, string>

  datatype Message = Message(chat: ChatId, text: Option<string>)

  /** A button tap; `chat` is the chat of the message carrying the button, if any. */
  datatype CallbackQuery = CallbackQuery(id: string, chat: Option<ChatId>, data: Option<string>)

  datatype Update = Update(callbackQuery: Option<CallbackQuery>, message: Option<Message>, editedMessage: Option<Message>)

  datatype UpdateKind = CallbackKind | MessageKind | EditedMessageKind | UnknownKind

  /** A call to the Telegram API: `sendMessage` (always with the topic keyboard) or `answerCallbackQuery`. */
  datatype Outgoing = SendMessage(chat: ChatId, text: string) | AnswerCallback(id: string)

  /** A request to the completion service: the classifier, or the composer with its inputs. */
  datatype LlmCall = ClassifyCall(text: string) | ComposeCall(intent: Intent, text: string, base: string)

  /** What one update does: the new session map, the Telegram calls and the completion requests, in order. */
  datatype Effect = Effect(state: Sessions, sent: seq<Outgoing>, calls: seq<LlmCall>)

  /** The `/start` introduction, as sent: the template below, trimmed. */
  const Intro := IntroHeading + IntroBody + IntroClosing

  const IntroHeading := "\U{1F476} *Hi, I'm BabyGPT (Singapore Edition)!*\n"
  const IntroBody :=
    "Your friendly companion for first-time parents of babies aged 0–3.\n"
    + "\n"
    + "I can help with:\n"
    + "1\U{FE0F}\U{20E3} *Health & Development* — sleep/crying, feeding & nutrition, milestones  \n"
    + "2\U{FE0F}\U{20E3} *Caregiving Support* — infantcare & nanny/helper info, and resolving conflicting advice  \n"
    + "3\U{FE0F}\U{20E3} *Parental Wellbeing* — gentle pointers for self-care\n"
    + "\n"
    + "I’m not a medical professional, but I’ll summarise steps and include trusted SG resources like HealthHub, ECDA, MOM.\n"
    + "\n"

  const IntroClosing := "*What would you like help with today?* \U{1F447}"

  /** The `/start` template as written in the handler: a line break before the text, and the indentation after it. */
  const IntroTemplate := "\n" + Intro + "\n      "

  /** `intro.trim()` is the introduction the handler sends. */
  lemma IntroIsTrimmedTemplate()
    ensures Trim(IntroTemplate) == Intro
  {
    assert IntroHeading[0] == '\U{1F476}';
    assert Intro[0] == IntroHeading[0];
    assert |IntroClosing| == 40 && IntroClosing[39] == '\U{1F447}';
    assert Intro[|Intro| - 1] == IntroClosing[|IntroClosing| - 1];
    TrimPadded("\n", Intro, "\n      ");
  }

  const QuotaReply := "[debug] OpenAI API quota exceeded – please check API credits."

  /** `promptMap[flow]`; a name outside the map reads as `undefined`. */
  function FlowQuestion(flow: string): string {
    match flow
    case "cry" => "Tell me the crying/sleep details (age + when it happens)."
    case "nutrition" => "Ask about feeding (milk amounts, starting solids, meal ideas)."
    case "caregiver" => "What caregiver do you need? (infantcare, helper/MDW, nanny/babysitter) and area?"
    case "advice" => "What conflicting advice are you getting? I’ll help you pick a plan."
    case _ => "undefined"
  }

  /** The message sent after a flow button: the flow's question and the topic breadcrumb. */
  function FlowPrompt(flow: string): string {
    FlowQuestion(flow) + "\n\n_Current topic: " + Upper(flow) + " • tap another button to change._"
  }

  /** The kind the handler logs, by precedence: a button tap, then a message, then an edited message. */
  function Kind(u: Update): UpdateKind {
    if u.callbackQuery.Some? then CallbackKind
    else if u.message.Some? then MessageKind
    else if u.editedMessage.Some? then EditedMessageKind
    else UnknownKind
  }

  /** `upd.message || upd.edited_message`, when it has a non-empty text: its chat and trimmed text. */
  function Incoming(u: Update): Option<(ChatId, string)> {
    var m := if u.message.Some? then u.message else u.editedMessage;
    if m.Some? && m.value.text.Some? && m.value.text.value != "" then Some((m.value.chat, Trim(m.value.text.value)))
    else None
  }

  /** The chat an update is about, when the handler gets as far as knowing it. */
  function TargetChat(u: Update): Option<ChatId> {
    if u.callbackQuery.Some? then u.callbackQuery.value.chat
    else if Incoming(u).Some? then Some(Incoming(u).value.0)
    else None
  }

  /** `state.get(chatId)?.flow` */
  function ActiveFlow(st: Sessions, chat: ChatId): Option<string> {
    if chat in st then Some(st[chat]) else None
  }

  /** The session map after the reply-keyboard label tests. */
  function Labelled(st: Sessions, chat: ChatId, text: string): Sessions {
    match LabelFlow(text)
    case Some(f) => st[chat := f]
    case None => st
  }

  /** A button tap: acknowledge it, and for `flow:<x>` store `x` (up to the next colon) and ask about it. */
  function CallbackStep(st: Sessions, cq: CallbackQuery): Effect {
    if cq.chat.None? then Effect(st, [], [])
    else
      var chat, data := cq.chat.value, cq.data.GetOr("");
      if StartsWith(data, "flow:") then
        var flow := Field(data[5..], ':');
        Effect(st[chat := flow], [AnswerCallback(cq.id), SendMessage(chat, FlowPrompt(flow))], [])
      else Effect(st, [AnswerCallback(cq.id)], [])
  }

  /** The reply to a resolved intent, after the active flow has overridden it. */
  function RouteStep(st: Sessions, chat: ChatId, text: string, resolved: Intent, cmp: Outcome<Option<string>>): Effect {
    var i := ApplyFlow(ActiveFlow(st, chat), text, resolved);
    if i == CaregivingFind then Effect(st, [SendMessage(chat, BlockInfantcare)], [])
    else if i == CaregivingHelper then Effect(st, [SendMessage(chat, BlockHelper)], [])
    else
      var call := ComposeCall(i, text, BaseSteps(i));
      match ComposeAI(i, cmp)
      case Returned(out) => Effect(st, [SendMessage(chat, out)], [call])
      case Threw(e) => Effect(st, if IsQuotaSignal(e) then [SendMessage(chat, QuotaReply)] else [], [call])
  }

  /** Intent resolution: the keyword classifier, and the completion classifier only when that says `Unknown`. */
  function ResolveStep(st: Sessions, chat: ChatId, text: string, cls: Outcome<Intent>,
                       cmp: Outcome<Option<string>>): Effect {
    var r := RuleIntent(text);
    if r != Unknown then RouteStep(st, chat, text, r, cmp)
    else
      match CallOpenAI(cls)
      case Returned(li) =>
        var e := RouteStep(st, chat, text, li, cmp);
        Effect(e.state, e.sent, [ClassifyCall(text)] + e.calls)
      case Threw(e) => Effect(st, if IsQuotaSignal(e) then [SendMessage(chat, QuotaReply)] else [], [ClassifyCall(text)])
  }

  /** After the labels: `/start`, the safety gate, then resolution and routing. */
  function GateStep(st: Sessions, chat: ChatId, text: string, cls: Outcome<Intent>,
                    cmp: Outcome<Option<string>>): Effect {
    if text == "/start" then Effect(st - {chat}, [SendMessage(chat, Intro)], [])
    else if IsEmergency(text) then Effect(st, [SendMessage(chat, EmergencyReply)], [])
    else if IsOffLimits(text) then Effect(st, [SendMessage(chat, OffLimitsReply)], [])
    else ResolveStep(st, chat, text, cls, cmp)
  }

  /** A text message: the reply-keyboard labels first, then the rest of the chain. */
  function TextStep(st: Sessions, chat: ChatId, text: string, cls: Outcome<Intent>,
                    cmp: Outcome<Option<string>>): Effect {
    GateStep(Labelled(st, chat, text), chat, text, cls, cmp)
  }

  /** One update, with the outcomes the two completion requests would have if they were made. */
  function Step(st: Sessions, u: Update, cls: Outcome<Intent>, cmp: Outcome<Option<string>>): Effect {
    if u.callbackQuery.Some? then CallbackStep(st, u.callbackQuery.value)
    else match Incoming(u)
      case None => Effect(st, [], [])
      case Some((chat, text)) => TextStep(st, chat, text, cls, cmp)
  }

  /** The four label tests in the handler's order; each match replaces the flow chosen so far. */
  method LabelTests(text: string) returns (flow: Option<string>)
    ensures flow == LabelFlow(text)
  {
    flow := None;
    if IsCryLabel(text) {
      flow := Some("cry");
    }
    if IsNutritionLabel(text) {
      flow := Some("nutrition");
    }
    if IsCaregivingLabel(text) {
      flow := Some("caregiver");
    }
    if IsAdviceLabel(text) {
      flow := Some("advice");
    }
  }

  /**
   * Intent resolution: the keyword intent, or the classifier's when the keywords give
   * `Unknown`; a quota failure of the classifier is answered and ends the update.
   */
  method Resolve(st: Sessions, chat: ChatId, text: string, cls: Outcome<Intent>, cmp: Outcome<Option<string>>)
    returns (sent: seq<Outgoing>, calls: seq<LlmCall>)
    ensures ResolveStep(st, chat, text, cls, cmp).state == st
    ensures sent == ResolveStep(st, chat, text, cls, cmp).sent
    ensures calls == ResolveStep(st, chat, text, cls, cmp).calls
  {
    var intent := RuleIntent(text);
    calls := [];
    if intent == Unknown {
      calls := [ClassifyCall(text)];
      var c := CallOpenAI(cls);
      if c.Threw? {
        sent := if IsQuotaSignal(c.error) then [SendMessage(chat, QuotaReply)] else [];
        return;
      }
      intent := c.value;
    }
    var routed, composed := Route(st, chat, text, intent, cmp);
    sent, calls := routed, calls + composed;
  }

  /** The active flow overrides the resolved intent, one test after the other. */
  method Override(st: Sessions, chat: ChatId, text: string, resolved: Intent) returns (intent: Intent)
    ensures intent == ApplyFlow(ActiveFlow(st, chat), text, resolved)
  {
    intent := resolved;
    var flow := ActiveFlow(st, chat);
    if flow == Some("cry") {
      intent := CryingSleep;
    }
    if flow == Some("nutrition") {
      intent := Nutrition;
    }
    if flow == Some("caregiver") {
      intent := if MentionsHelper(text) then CaregivingHelper else CaregivingFind;
    }
    if flow == Some("advice") {
      intent := AdviceConflict;
    }
  }

  /**
   * Routing: after the flow override, the caregiving intents get their canned block and
   * every other intent a composed reply (or the quota notice).
   */
  method Route(st: Sessions, chat: ChatId, text: string, resolved: Intent, cmp: Outcome<Option<string>>)
    returns (sent: seq<Outgoing>, calls: seq<LlmCall>)
    ensures RouteStep(st, chat, text, resolved, cmp).state == st
    ensures sent == RouteStep(st, chat, text, resolved, cmp).sent
    ensures calls == RouteStep(st, chat, text, resolved, cmp).calls
  {
    var intent := Override(st, chat, text, resolved);
    if intent == CaregivingFind {
      return [SendMessage(chat, BlockInfantcare)], [];
    }
    if intent == CaregivingHelper {
      return [SendMessage(chat, BlockHelper)], [];
    }
    var base := BaseSteps(intent);
    calls := [ComposeCall(intent, text, base)];
    var out := ComposeAI(intent, cmp);
    if out.Returned? {
      sent := [SendMessage(chat, out.value)];
    } else if IsQuotaSignal(out.error) {
      sent := [SendMessage(chat, QuotaReply)];
    } else {
      sent := [];
    }
  }

  /** The bot's mutable state: the session map and the logs of what it sent and requested. */
  class Bot {
    var state: Sessions
    var outbox: seq<Outgoing>
    var llmCalls: seq<LlmCall>

    constructor()
      ensures state == map[] && outbox == [] && llmCalls == []
    {
      state := map[];
      outbox := [];
      llmCalls := [];
    }

    /** The webhook handler: a button tap, or else the message (or edited message) with a text. */
    method HandleUpdate(u: Update, cls: Outcome<Intent>, cmp: Outcome<Option<string>>)
      modifies this
      ensures state == Step(old(state), u, cls, cmp).state
      ensures outbox == old(outbox) + Step(old(state), u, cls, cmp).sent
      ensures llmCalls == old(llmCalls) + Step(old(state), u, cls, cmp).calls
    {
      if u.callbackQuery.Some? {
        HandleCallback(u.callbackQuery.value);
        return;
      }
      var m := if u.message.Some? then u.message else u.editedMessage;
      if m.None? || m.value.text.None? || m.value.text.value == "" {
        return;
      }
      HandleText(m.value.chat, Trim(m.value.text.value), cls, cmp);
    }

    /** A button tap: acknowledge it; a `flow:` payload sets the chat's flow and asks about it. */
    method HandleCallback(cq: CallbackQuery)
      modifies this
      ensures state == CallbackStep(old(state), cq).state
      ensures outbox == old(outbox) + CallbackStep(old(state), cq).sent
      ensures llmCalls == old(llmCalls)
    {
      if cq.chat.None? {
        return;
      }
      var chat := cq.chat.value;
      var data := cq.data.GetOr("");
      outbox := outbox + [AnswerCallback(cq.id)];
      if StartsWith(data, "flow:") {
        var flow := Field(data[5..], ':');
        state := state[chat := flow];
        outbox := outbox + [SendMessage(chat, FlowPrompt(flow))];
      }
    }

    /** A trimmed text message: the label tests, then the rest of the chain. */
    method HandleText(chat: ChatId, text: string, cls: Outcome<Intent>, cmp: Outcome<Option<string>>)
      modifies this
      ensures state == TextStep(old(state), chat, text, cls, cmp).state
      ensures outbox == old(outbox) + TextStep(old(state), chat, text, cls, cmp).sent
      ensures llmCalls == old(llmCalls) + TextStep(old(state), chat, text, cls, cmp).calls
    {
      var tapped := LabelTests(text);
      if tapped.Some? {
        state := state[chat := tapped.value];
      }
      Gate(chat, text, cls, cmp);
    }

    /** `/start` clears the chat's session; the safety gate answers and stops; the rest is resolved and routed. */
    method Gate(chat: ChatId, text: string, cls: Outcome<Intent>, cmp: Outcome<Option<string>>)
      modifies this
      ensures state == GateStep(old(state), chat, text, cls, cmp).state
      ensures outbox == old(outbox) + GateStep(old(state), chat, text, cls, cmp).sent
      ensures llmCalls == old(llmCalls) + GateStep(old(state), chat, text, cls, cmp).calls
    {
      if text == "/start" {
        state := state - {chat};
        outbox := outbox + [SendMessage(chat, Intro)];
        return;
      }
      if IsEmergency(text) {
        outbox := outbox + [SendMessage(chat, EmergencyReply)];
        return;
      }
      if IsOffLimits(text) {
        outbox := outbox + [SendMessage(chat, OffLimitsReply)];
        return;
      }
      var sent, calls := Resolve(state, chat, text, cls, cmp);
      outbox := outbox + sent;
      llmCalls := llmCalls + calls;
    }
  }
}
