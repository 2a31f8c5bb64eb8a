# BabyGPT message router, modelled in Dafny

This project models the message-routing and session logic of BabyGPT. BabyGPT is a Telegram bot for parents in Singapore, written as a single Node.js file (`index.js`). The model proves properties about that logic.

A webhook update is handled one at a time, against a per-chat session map that records the chat's chosen *flow* (`cry`, `nutrition`, `caregiver` or `advice`).

**Button taps** (`callback_query`) are acknowledged. A `flow:<x>` payload stores `x` as the chat's flow and sends that flow's question with a topic breadcrumb. A tap whose message is missing does nothing: in the source, reading its chat throws and the outer handler only logs.

**Text messages** (`message`, or else `edited_message`) are trimmed and then run through the decision chain:
1. Reply-keyboard label texts set the flow.
2. `/start` deletes the chat's session and sends the introduction.
3. An emergency cue gets a fixed "call 995" reply, and an off-limits topic gets a fixed SOS/IMH reply.
4. Otherwise the intent is resolved. The ordered keyword classifier `ruleIntent` comes first; the completion-service classifier is consulted only when the keywords give `unknown`.
5. The chat's active flow overrides the intent.
6. The two caregiving intents get canned blocks. Every other intent gets a reply from `composeAI`: the model's trimmed text or a default opening, a "More information" section listing the intent's links, and a disclaimer.

**Quota errors.** `callOpenAI` maps quota and billing errors to the single error `openai_quota`, which the handler answers with a fixed notice.

Files and modules:

| file | module | what it holds |
|---|---|---|
| `text.dfy` | `Options`, `Text` | the option type; JavaScript white space, `trim()`, ASCII case mapping, substring tests, keyword patterns, `split(":")[1]`, `join("\n")` |
| `safety.dfy` | `Safety` | the emergency and off-limits patterns and their fixed replies |
| `intents.dfy` | `Intents` | the intent enumeration, `ruleIntent` and its rule-table reading, the flow override |
| `labels.dfy` | `Labels` | the four reply-keyboard label patterns, as written and as intended (see Findings) |
| `openai.dfy` | `OpenAI` | `callOpenAI`'s error mapping over an outcome value |
| `compose.dfy` | `Compose` | `SG_LINKS`, the base steps, the two canned blocks, `composeAI`'s reply layout |
| `router.dfy` | `Router` | the update types and the pure step function `Step`, plus the imperative handler: class `Bot`, with the session map, the outbox of Telegram calls and the log of completion requests; its methods are proved to do what `Step` says |
| `router_facts.dfy` | `RouterFacts` | the handler's guarantees, proved about `Step` |

**Regexes.** Every regex of the source is an unanchored alternation of keywords over ASCII-lower-cased text. The exceptions are the three anchored label patterns and `Conflicting.*Advice`, which are modelled separately in `Labels`. Each is modelled as keyword containment: `Text.Pattern` lists the plain alternatives and the `a\s?b` alternatives.

**Outside the model.** The two completion requests are not modelled. Their outcomes (a value, or a thrown error with its message and the service's nested detail message) are parameters of `Step` and `Bot.HandleUpdate`. Only the outcome that the handler actually consumes affects the result.

**Order of resolution.** `index.js` consults the classifier *before* the flow override, whenever the keywords give `unknown`, even with a flow active. A quota failure there stops the update before the flow is read (index.js:362-390; `RouterFacts.ClassifierOnlyWhenUnknown`, `RouterFacts.ClassifierQuotaStops`).

**Label texts.** The router recognises a reply-keyboard label with or without its emoji (`Labels.LabelMatches`). The regexes in `index.js` require the emoji (`Labels.LabelAsWritten`); the difference is recorded under Findings and Left out.

## Model

| member | source | states |
|---|---|---|
| Text.TrimStart | index.js:305 | the result is a suffix of the text; every character dropped is white space; the result does not start with white space |
| Text.TrimBounds | index.js:305 | `trim()` keeps a contiguous part of the text, and what it drops before and after that part is all white space; the result has no white space at either end, and is "" exactly for a blank text |
| Text.TrimIdempotent | index.js:305 | trimming an already trimmed text changes nothing |
| Text.LowerOfUpper | index.js:31 | lower-casing an upper-cased text gives the lower-cased text (the basis of case-insensitive matching) |
| Text.WordMatches | index.js:32-45 | one occurrence of any alternative's word makes the alternation match |
| Text.Field | index.js:277 | the piece before the first `:` contains no `:`, is a prefix of the text, and is followed by `:` or the end |
| Text.FieldOf | index.js:277 | `("flow:" + x + rest).split(":")[1]` is exactly `x` when `x` has no colon and `rest` is empty or starts with one |
| Text.JoinPieceAt | index.js:233 | in `join("\n")`, the k-th piece stands at its offset; it is followed by a line break and then the next piece, or ends the text |
| Text.TrimEnd | index.js:305 | the result is a prefix of the text, every character dropped is white space, and the result does not end with white space |
| Text.Trim | index.js:305 | `String.prototype.trim` over the JavaScript white-space and line-terminator set; specified by `Text.TrimBounds` and `Text.TrimIdempotent` |
| Text.Lower | index.js:31 | `toLowerCase()` on ASCII letters, other characters unchanged; specified by `Text.LowerOfUpper` |
| Text.Matches | index.js:32-45 | a keyword alternation, with plain words and `a\s?b` pairs, tested anywhere in the text; specified by `Text.WordMatches` |
| Text.Join | index.js:233 | `join("\n")`; its layout is stated by `Text.JoinPieceAt` |
| Text.TrimStartPadded | index.js:336 | leading white space in front of a text that does not start with white space is all removed |
| Text.TrimEndPadded | index.js:336 | trailing white space after a text that does not end with white space is all removed |
| Text.TrimPadded | index.js:336 | a text with no white space at either end, padded with white space on both sides, trims back to itself |
| Text.IsWhitespace | index.js:305 | the characters `trim()` removes and `\s` matches: the JavaScript white-space and line-terminator set; used by `Text.TrimStart`, `Text.TrimEnd` and `Text.ContainsSpaced` |
| Text.Upper | index.js:290 | `toUpperCase()` on ASCII letters, other characters unchanged; specified by `Text.LowerOfUpper` |
| Text.StartsWith | index.js:276 | `startsWith`: the text begins with the prefix |
| Text.Contains | index.js:151-153 | `includes`: the word occurs somewhere in the text |
| Text.ContainsAny | index.js:150-154 | one of the words occurs somewhere in the text; used by `OpenAI.IsQuotaExhausted` and `Text.Matches` |
| Safety.FeverReadingIsEmergency | index.js:25-26 | the fever alternative of the emergency pattern: "fever", then one white-space character or none, then 40 or 41, in any letter case and anywhere in the text, is an emergency |
| Safety.SafetyIgnoresCase | index.js:25-28 | both safety patterns give the same answer for the upper-cased text |
| Safety.IsEmergency | index.js:25-26 | `EMERGENCY_RE.test(text)`; specified by `Safety.FeverReadingIsEmergency` and `Safety.SafetyIgnoresCase`, and its short circuit by `RouterFacts.EmergencyShortCircuit` |
| Safety.IsOffLimits | index.js:27-28 | `OFFLIMIT_RE.test(text)`; specified by `Safety.SafetyIgnoresCase`, and its short circuit by `RouterFacts.OffLimitsShortCircuit` |
| Safety.SafetyRepliesNameHelpLines | index.js:347-355 | the emergency reply names 995, and the off-limits reply names SOS (1767) and IMH (6389 2222) |
| Intents.FirstMatchIsEarliest | index.js:30-47 | in an ordered rule table, the first matching rule decides, whatever later rules match |
| Intents.FirstMatchUnknown | index.js:30-47 | the table gives `unknown` exactly when no rule matches |
| Intents.RuleIntentIsTable | index.js:30-47 | `ruleIntent`'s if-chain is the ordered table of the eight keyword groups, read on the lower-cased text |
| Intents.RuleIntentFirstGroupWins | index.js:30-47 | when group k is the first group to match, `ruleIntent` returns group k's intent |
| Intents.RuleIntentUnknownIff | index.js:30-47 | `ruleIntent` returns `unknown` if and only if no keyword group matches |
| Intents.RuleIntentIgnoresCase | index.js:30-31 | an upper-cased message gets the same intent |
| Intents.SleepBeforeMilk | index.js:32-35 | a message mentioning both sleep and milk resolves to `healthdev.crying_sleep`, the earlier group |
| Intents.ApplyFlowOverrides | index.js:382-390 | cry gives `healthdev.crying_sleep`, nutrition `healthdev.nutrition` and advice `advice.conflict`; caregiver gives the helper intent exactly when the text mentions helper/mdw/maid/permit, and the infant-care intent otherwise; so the four flows fix the intent whatever was resolved, and no flow (or any other stored value) keeps the intent |
| Intents.FirstMatch | index.js:30-47 | the reading of an ordered rule table; specified by `Intents.FirstMatchIsEarliest` and `Intents.FirstMatchUnknown` |
| Intents.RuleIntent | index.js:30-47 | `ruleIntent`; specified by `Intents.RuleIntentIsTable`, `RuleIntentFirstGroupWins`, `RuleIntentUnknownIff`, `RuleIntentIgnoresCase` and `SleepBeforeMilk` |
| Intents.MentionsHelper | index.js:387 | the caregiver-flow test for helper, mdw, maid or permit (case-insensitive); used by `Intents.ApplyFlow` and specified through `Intents.ApplyFlowOverrides` |
| Intents.ApplyFlow | index.js:382-390 | the four flow tests on the resolved intent; specified by `Intents.ApplyFlowOverrides` and computed imperatively by `Router.Override` |
| Labels.LabelAsWrittenNeedsEmoji | index.js:309-314 | as written, an anchored label matches only when the text starts with the emoji, and then it also matches as intended |
| Labels.PlainCryLabelMissedAsWritten | index.js:309-310 | the plain text "Crying / Sleep" is rejected as written but recognised as intended |
| Labels.SpacedWordsSkipsSpace | index.js:309-314 | leading white space before the label words makes no difference |
| Labels.EmojiPrefixOptional | index.js:309-314 | as intended, putting the emoji in front of a label text does not change whether it matches |
| Labels.LabelAsWritten | index.js:309-314 | an anchored label regex as JavaScript runs it without the `u` flag; specified by `Labels.LabelAsWrittenNeedsEmoji` and `Labels.PlainCryLabelMissedAsWritten` |
| Labels.LabelMatches | index.js:309-314 | the same regex read with the emoji optional; specified by `Labels.EmojiPrefixOptional` and `Labels.SpacedWordsSkipsSpace` |
| Labels.IsAdviceLabel | index.js:315 | `/Conflicting.*Advice/i`: "conflicting", then "advice" later on the same line |
| Labels.LabelFlow | index.js:309-316 | the emoji-optional reading of the four label tests at index.js:309-316: the flow they leave, the last matching test winning; `Labels.LabelFlowSelects` states which flow each label selects, and `Router.LabelTests` computes it imperatively |
| Labels.LabelFlowSelects | index.js:309-316 | a crying/sleep label selects `cry`, a nutrition label `nutrition`, a caregiving label `caregiver` and a conflicting-advice text `advice`; a text matching none of the four selects no flow, and one matching any selects some flow |
| Labels.AnchoredLabelsExclusive | index.js:309-314 | no text matches two of the crying/sleep, nutrition and caregiving labels, because their emojis and first words begin differently |
| Labels.AdviceExcludesAnchored | index.js:309-315 | a text that the conflicting-advice test matches is none of the three anchored labels, which contain no letter f |
| Labels.AnchoredExclusive | index.js:309-314 | two anchored label patterns whose emojis differ in their first character, and whose first words differ in their first two characters and do not begin with the other's emoji, never match the same text |
| Labels.AdviceIsNotLabel | index.js:309-315 | an anchored label whose emoji and words have no f never matches a text containing "conflicting" |
| Labels.TypedCryLabelSelectsCry | index.js:309-310 | as intended, the button caption "Crying / Sleep" (index.js:244) typed without its emoji selects the `cry` flow |
| Labels.TypedNutritionLabelSelectsNutrition | index.js:311-312 | as intended, the button caption "Nutrition" (index.js:245) typed without its emoji selects the `nutrition` flow |
| Labels.TypedCaregivingLabelSelectsCaregiver | index.js:313-314 | as intended, the button caption "Caregiving" (index.js:246) typed without its emoji selects the `caregiver` flow |
| OpenAI.CallOpenAI | index.js:144-158 | a result passes through unchanged; an error whose text names quota or billing exhaustion becomes `openai_quota`; every other error is rethrown unchanged |
| OpenAI.QuotaSignalIff | index.js:144-158 | the caller sees `openai_quota` exactly when the service reported exhaustion or the error already carried that message; errors stay errors and results stay results |
| OpenAI.QuotaMarkerInDetail | index.js:148-155 | any nested service message containing one of the three markers, wherever it occurs, yields `openai_quota` |
| OpenAI.ErrorText | index.js:148 | the nested service message, else the error's own message, else "unknown error"; used by `OpenAI.CallOpenAI` and specified through `OpenAI.QuotaMarkerInDetail` |
| OpenAI.IsQuotaExhausted | index.js:150-154 | the three case-sensitive marker tests; specified through `OpenAI.CallOpenAI` and `OpenAI.QuotaSignalIff` |
| OpenAI.IsQuotaSignal | index.js:369 | the caller's `err.message === "openai_quota"`; specified through `OpenAI.QuotaSignalIff` |
| Compose.OpeningShape | index.js:226-228 | the opening is never empty and has no white space at either end; it is the trimmed model text when that is not blank, and "Let’s take this step by step." otherwise |
| Compose.MoreInfoLines | index.js:231-234 | the link section starts with its header and lists every link on its own bullet line, in table order, separated by line breaks |
| Compose.FrameOf | index.js:226-237 | the reply starts with the opening and ends with the disclaimer; the link section is absent exactly when the list is empty, and otherwise its header follows the opening |
| Compose.LineOf | index.js:233-236 | each link's bullet line sits at its computed position in the whole reply |
| Compose.ReplyLayout | index.js:226-237 | for every intent: the reply starts with the opening, ends with the disclaimer, has the "More information" section exactly when `SG_LINKS[intent]` is non-empty, and has each link on its bullet line in table order |
| Compose.Links | index.js:92-120 | `SG_LINKS[intent]`, or the empty list: the reference lines of each intent, in table order, and none for the other intents; their layout in a reply is stated by `Compose.ReplyLayout` |
| Compose.BaseSteps | index.js:407-418 | the base steps handed to the composer for each intent, "" for the others; stated for the composer request by `RouterFacts.RouteCalls` and `RouterFacts.NoFlowKeepsIntent` |
| Compose.Opening | index.js:226-228 | the model's trimmed text or the default opening; specified by `Compose.OpeningShape` |
| Compose.MoreInfo | index.js:231-234 | the "More information" section; specified by `Compose.MoreInfoLines` |
| Compose.Assemble | index.js:226-237 | the reply built from the model's text; specified by `Compose.FrameOf`, `Compose.LineOf` and `Compose.ReplyLayout` |
| Compose.ComposeAI | index.js:208-239 | `composeAI` through `callOpenAI`; its use is specified by `RouterFacts.ComposedReply` and `RouterFacts.ComposedReplyEndsWithDisclaimer` |
| Compose.BlocksEndWithDisclaimer | index.js:123-141 | both canned caregiving replies end with the same disclaimer as composed replies |
| Router.LabelTests | index.js:309-316 | the emoji-optional reading of the four label tests in sequence, each overwriting the last: the flow `Labels.LabelFlow` gives, which by `Labels.LabelFlowSelects` is `cry`, `nutrition`, `caregiver` or `advice` for the matching label and none when no label matches |
| Router.Override | index.js:382-390 | the sequence of flow tests on the mutable intent gives the flow override |
| Router.Route | index.js:393-433 | routing sends what `RouteStep` says: the canned block for caregiving; otherwise one composer request and the composed reply, the quota notice, or nothing |
| Router.Resolve | index.js:361-379 | resolution sends and requests what `ResolveStep` says: the classifier only after an `unknown`, and a quota failure answered and final |
| Router.Bot.constructor | index.js:22 | a new bot has no sessions, has sent nothing and requested nothing |
| Router.Bot.HandleUpdate | index.js:252-305 | the handler's new session map is `Step`'s (with the emoji-optional reading of the label tests), and its outbox and request log grow by exactly `Step`'s calls, in order |
| Router.Bot.HandleCallback | index.js:268-299 | a tap is acknowledged; a `flow:` payload stores the flow and sends its prompt; nothing else changes |
| Router.Bot.HandleText | index.js:302-316 | the label tests (emoji-optional reading) update the session, then the rest of the chain runs as `TextStep` says |
| Router.Bot.Gate | index.js:318-359 | `/start` deletes the session and sends the introduction; the safety replies stop the update; otherwise resolution and routing append their calls |
| Router.FlowQuestion | index.js:281-289 | `promptMap[flow]`, "undefined" outside the four flows; stated for a tap by `RouterFacts.FlowButtonSetsSession` |
| Router.FlowPrompt | index.js:290-293 | the flow's question followed by the upper-cased topic breadcrumb; stated for a tap by `RouterFacts.FlowButtonSetsSession` |
| Router.Kind | index.js:256-262 | the update type by precedence: tap, message, edited message, unknown |
| Router.Incoming | index.js:302-305 | the message, or else the edited message, when it has a non-empty text: its chat and trimmed text; specified by `RouterFacts.UpdatePrecedence` and `RouterFacts.TextMessageStep` |
| Router.ActiveFlow | index.js:382 | `state.get(chatId)?.flow` |
| Router.Labelled | index.js:309-316 | the session map after the emoji-optional reading of the label tests; specified by `RouterFacts.LabelledOnlyChat` |
| Router.CallbackStep | index.js:268-299 | a tap's effect; specified by `RouterFacts.FlowButtonSetsSession` and `RouterFacts.OtherButtonKeepsState`, and carried out by `Router.Bot.HandleCallback` |
| Router.RouteStep | index.js:393-433 | the reply to a resolved intent after the flow override; specified by `RouterFacts.RouteCalls`, `ActiveFlowDecidesReply`, `NoFlowKeepsIntent`, `CaregivingUsesBlocks`, `CaregiverFlowSplitsOnHelper`, `ComposedReply` and `RouteSingleReply`, and carried out by `Router.Route` |
| Router.ResolveStep | index.js:361-379 | intent resolution then routing; specified by `RouterFacts.ResolveCalls` and `RouterFacts.ResolveKeepsState`, and carried out by `Router.Resolve` |
| Router.GateStep | index.js:318-359 | `/start`, the safety gate, then resolution; specified by `RouterFacts.GateStart`, `GateCalls`, `GateOnlyChat` and `GateSingleReply`, and carried out by `Router.Bot.Gate` |
| Router.TextStep | index.js:302-316 | a text message's effect: the emoji-optional reading of the labels, then `Router.GateStep`; carried out by `Router.Bot.HandleText` |
| Router.Step | index.js:252-305 | one update's effect (with the emoji-optional reading of the label tests); specified by the whole-update lemmas of `RouterFacts` (`UpdatePrecedence`, `StartResetsSession`, `StepTouchesOnlyItsChat`, `EmergencyShortCircuit`, `OffLimitsShortCircuit`, `ClassifierOnlyWhenUnknown`, `ClassifierQuotaStops`, `ClassifierOtherErrorSilent`, `KnownIntentIgnoresClassifier`, `AtMostOneReply`), and carried out by `Router.Bot.HandleUpdate` |
| Router.IntroIsTrimmedTemplate | index.js:321-336 | `intro.trim()`: trimming the `/start` template, with its leading line break and trailing indentation, gives exactly the introduction `Router.GateStep` sends |
| RouterFacts.UpdatePrecedence | index.js:256-302 | a button tap is handled whatever message fields the update also has; a message hides an edited message; an update with neither does nothing |
| RouterFacts.TextMessageStep | index.js:302-305 | a text message is handled on its chat and its trimmed text |
| RouterFacts.FlowButtonSetsSession | index.js:274-296 | a `flow:<x>` tap sets the chat's session to exactly `x`, and sends exactly the acknowledgement and the flow's prompt, with no request |
| RouterFacts.OtherButtonKeepsState | index.js:274-298 | a tap without the `flow:` prefix leaves the sessions unchanged and is only acknowledged |
| RouterFacts.LabelledOnlyChat | index.js:309-316 | the label tests change only the message's own chat's session |
| RouterFacts.GateStart | index.js:319-341 | `/start` deletes the chat's session and sends only the introduction |
| RouterFacts.StartResetsSession | index.js:319-341 | a `/start` message, with any surrounding white space, deletes the chat's session (whatever the labels did) and sends only the introduction, with no request |
| RouterFacts.LabelSetsSession | index.js:309-316 | a text message other than `/start` leaves exactly the sessions the label tests set: `cry`, `nutrition`, `caregiver` or `advice` for the chat of a crying/sleep, nutrition, caregiving or conflicting-advice label, and no change for any other text, whatever the gate and routing then do |
| RouterFacts.ResolveKeepsState | index.js:362-433 | resolution and routing never change the sessions |
| RouterFacts.GateOnlyChat | index.js:318-359 | the gate and everything after it change only the chat's own session |
| RouterFacts.StepTouchesOnlyItsChat | index.js:278-320 | an update changes at most its own chat's session; other chats' entries are kept |
| RouterFacts.EmergencyShortCircuit | index.js:344-351 | an emergency message, once past `/start`, gets only the "call 995" reply, with no classifier or composer request, whatever the services would answer |
| RouterFacts.OffLimitsShortCircuit | index.js:352-359 | an off-limits message that is not an emergency gets only the SOS/IMH reply, with no request |
| RouterFacts.RouteCalls | index.js:394-421 | routing asks nothing for the caregiving intents, and otherwise asks the composer once, with the final intent, the text and that intent's base steps |
| RouterFacts.ResolveCalls | index.js:362-379 | resolution asks the classifier exactly when the keywords give `unknown`, and then as the first request |
| RouterFacts.GateCalls | index.js:319-359 | `/start` and the safety replies make no request; any other text goes to resolution |
| RouterFacts.ClassifierOnlyWhenUnknown | index.js:362-366 | over whole updates: the classifier is asked if and only if a message gets past the gate and `ruleIntent` gives `unknown` |
| RouterFacts.ClassifierQuotaStops | index.js:365-376 | a classifier quota failure sends only the quota notice (the fixed text at index.js:372), with no flow override and no composer request |
| RouterFacts.ClassifierOtherErrorSilent | index.js:365-378 | any other classifier failure ends the update with no reply |
| RouterFacts.KnownIntentIgnoresClassifier | index.js:362-366 | when the keywords resolve the intent, what the classifier would answer makes no difference |
| RouterFacts.ActiveFlowDecidesReply | index.js:382-390 | with one of the four flows active, the resolved intent makes no difference to the update's effect |
| RouterFacts.NoFlowKeepsIntent | index.js:382-421 | with no flow, the resolved intent is the one composed for, with its own base steps |
| RouterFacts.CaregivingUsesBlocks | index.js:394-405 | the caregiving intents send exactly their canned block and never ask the composer; the composer's answer makes no difference |
| RouterFacts.CaregiverFlowSplitsOnHelper | index.js:386-405 | in the caregiver flow, a helper question gets the helper block and anything else the infant-care block |
| RouterFacts.ComposedReply | index.js:407-433 | any other intent makes one composer request; it sends the assembled reply, the quota notice on a quota failure, or nothing on another failure |
| RouterFacts.ComposedReplyEndsWithDisclaimer | index.js:235-237 | a composed reply always ends with the disclaimer |
| RouterFacts.FlowComposesItsIntent | index.js:384-421 | with the cry, nutrition or advice flow active, the only request is to the composer, for that flow's intent with that intent's base steps, whatever was resolved |
| RouterFacts.RoutedReplyEndsWithDisclaimer | index.js:394-433 | every message routing sends is the quota notice or ends with the disclaimer |
| RouterFacts.RouteSingleReply | index.js:394-433 | routing sends at most one message, to the chat |
| RouterFacts.GateSingleReply | index.js:319-433 | a text message past the labels gets at most one message, to its chat |
| RouterFacts.AtMostOneReply | index.js:266-437 | a text message gets at most one message, in its own chat; a tap is acknowledged first and gets at most one prompt, to its chat |

## Left out

- The Express server, the `/health` route, `app.listen` and `setWebhook` (index.js:7-8, 440-461) are HTTP plumbing.
- `safeFetch`, `sendMsg` and `answerCbq` are network I/O. A send is an entry appended to the outbox. The handler ignores their results, so failed deliveries change nothing. The inline keyboard attached to every message, and the Markdown options, are not recorded.
- The requests inside `classifyIntentLLM` and `composeAI` go to a foreign service. Their outcomes are parameters.
- The classifier's answer is assumed to be one of the ten enumerated intents. An answer that does not parse is a thrown error, which the outcome type covers. The response schema is not strict. An answer that parses but has no valid `intent` leaves `intent` undefined in the source (index.js:366-367), which the model does not represent. Routing treats such an answer as it treats `unknown`: a composer request with no links and empty base steps. Only the intent named in that request differs. The prompts sent to the service are not modelled; the composer request records the intent, text and base steps it would be given.
- Logging, `JSON.parse` and `JSON.stringify` are left out.
- Regex semantics are reduced to keyword containment. Case-insensitivity and `toLowerCase`/`toUpperCase` cover ASCII letters only, and other characters are kept as they are.
- Labels.LabelAsWritten: treats each emoji as one unit of text. A lone UTF-16 surrogate, which the regex without the `u` flag could match on its own, cannot be written as a Dafny string.
- Router.FlowQuestion: every flow name outside the four gives "undefined". In JavaScript, `promptMap` names that are inherited object properties (such as `constructor`) would give other text.
- Compose.ReplyLayout: states where each link line sits and what separates the lines. It does not state that splitting the reply at line breaks gives the links back (the link texts hold no line break, but that is not proved).
- Two updates for the same chat can interleave at the awaits (in `index.js`, `sendMsg` and the completion requests). That concurrency is out of scope: the model handles one update at a time.
- Router.LabelTests: uses the emoji-optional reading of the three anchored label regexes (`Labels.LabelMatches`). It therefore differs from index.js:309-314 as written on a label typed without its emoji. For example, "Nutrition" sets the `nutrition` flow in the model but no flow in the source.
- Router.Bot.HandleText: its label step is `Router.LabelTests`, so its new session differs from the source in the same way on a label typed without its emoji.
- Labels.LabelFlow: is built on the emoji-optional `Labels.LabelMatches`, so "Nutrition" gives the `nutrition` flow, while index.js:311 as written sets none.
- Router.Labelled: applies `Labels.LabelFlow`, so it sets a flow for a label typed without its emoji where the source does not.
- Labels.LabelFlowSelects: states the emoji-optional reading, so a crying/sleep, nutrition or caregiving label typed without its emoji selects its flow, which the source as written does not.
- Labels.TypedCryLabelSelectsCry: describes the intended behaviour; as written, index.js:309 sets no flow for "Crying / Sleep".
- Labels.TypedNutritionLabelSelectsNutrition: describes the intended behaviour; as written, index.js:311 sets no flow for "Nutrition".
- Labels.TypedCaregivingLabelSelectsCaregiver: describes the intended behaviour; as written, index.js:313 sets no flow for "Caregiving".
- RouterFacts.LabelSetsSession: rests on `Labels.LabelFlow`, so it describes the emoji-optional reading of the label tests.
- Router.TextStep: starts with `Router.Labelled` and inherits the same difference.
- Router.Step: runs `Router.TextStep` for text messages and inherits the same difference.
- Router.Bot.HandleUpdate: its contract is `Router.Step`'s, so its new session map differs from the source on a label typed without its emoji.

## Findings

| source | as written | input that shows it | evidently intended | confidence | as-written member | corrected member |
|---|---|---|---|---|---|---|
| index.js:309-314 | `/^\s*🍼?\s*Crying\s*\/\s*Sleep\s*$/i` (and the nutrition and caregiving labels) is a regex literal without the `u` flag. The emoji is two UTF-16 units, and `?` makes only the last unit optional, so the emoji is required | the message "Crying / Sleep" | the emoji prefix is optional, so a plain label text also selects its flow | high; not executed | Labels.PlainCryLabelMissedAsWritten | Labels.EmojiPrefixOptional |
