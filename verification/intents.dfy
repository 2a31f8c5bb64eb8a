/**
 * Intent resolution: the fixed set of intents (the enumeration the language-model
 * classifier is constrained to), the ordered keyword classifier `ruleIntent`, and the
 * override of the resolved intent by the chat's active flow.
 */
module Intents {
  import opened Text
  import opened Options

  /**
   * The intents, in the order of their wire names `healthdev.crying_sleep`,
   * `healthdev.nutrition`, `healthdev.milestones`, `caregiving.find`, `caregiving.helper`,
   * `advice.conflict`, `wellbeing.checkin`, `help.anytime`, `escalation.emergency`, `unknown`.
   */
  datatype Intent =
    | CryingSleep | Nutrition | Milestones | CaregivingFind | CaregivingHelper
    | AdviceConflict | WellbeingCheckin | HelpAnytime | EscalationEmergency | Unknown

  /** `cry|sleep|colic|night waking|won'?t sleep` */
  const CryPattern := Pattern(["cry", "sleep", "colic", "night waking", "won't sleep", "wont sleep"], [])
  /** `solid|wean|milk|feed|recipe|diet|meal` */
  const FeedingPattern := Pattern(["solid", "wean", "milk", "feed", "recipe", "diet", "meal"], [])
  /** `milestone|tummy|speech|development` */
  const MilestonePattern := Pattern(["milestone", "tummy", "speech", "development"], [])
  /** `infantcare|preschool|nanny|babysitter|daycare` */
  const ChildcarePattern := Pattern(["infantcare", "preschool", "nanny", "babysitter", "daycare"], [])
  /** `helper|mdw|maid|work permit|permit` */
  const HelperPattern := Pattern(["helper", "mdw", "maid", "work permit", "permit"], [])
  /** `conflicting|too many opinions|overload` */
  const ConflictPattern := Pattern(["conflicting", "too many opinions", "overload"], [])
  /** `overwhelmed|anxious|tired|burnt\s?out` */
  const WellbeingPattern := Pattern(["overwhelmed", "anxious", "tired"], [("burnt", "out")])
  /** `help|menu` */
  const HelpPattern := Pattern(["help", "menu"], [])

  /**
   * `ruleIntent`: the keyword groups are tried one after the other on the lower-cased
   * text and the first group that matches decides; no match gives `Unknown`.
   */
  function RuleIntent(t: string): Intent {
    var s := Lower(t);
    if Matches(CryPattern, s) then CryingSleep
    else if Matches(FeedingPattern, s) then Nutrition
    else if Matches(MilestonePattern, s) then Milestones
    else if Matches(ChildcarePattern, s) then CaregivingFind
    else if Matches(HelperPattern, s) then CaregivingHelper
    else if Matches(ConflictPattern, s) then AdviceConflict
    else if Matches(WellbeingPattern, s) then WellbeingCheckin
    else if Matches(HelpPattern, s) then HelpAnytime
    else Unknown
  }

  /** The same classifier as an ordered table of (pattern, intent) rules. */
  const IntentRules: seq<(Pattern, Intent)> := [
    (CryPattern, CryingSleep), (FeedingPattern, Nutrition), (MilestonePattern, Milestones),
    (ChildcarePattern, CaregivingFind), (HelperPattern, CaregivingHelper),
    (ConflictPattern, AdviceConflict), (WellbeingPattern, WellbeingCheckin), (HelpPattern, HelpAnytime)
  ]

  /** Interprets an ordered rule table: the intent of the first rule whose pattern matches. */
  function FirstMatch(rules: seq<(Pattern, Intent)>, s: string): Intent {
    if rules == [] then Unknown
    else if Matches(rules[0].0, s) then rules[0].1
    else FirstMatch(rules[1..], s)
  }

  /** The earliest matching rule decides, whatever later rules also match. */
  lemma {:induction false} FirstMatchIsEarliest(rules: seq<(Pattern, Intent)>, s: string, k: nat)
    requires k < |rules| && Matches(rules[k].0, s)
    requires forall j :: 0 <= j < k ==> !Matches(rules[j].0, s)
    ensures FirstMatch(rules, s) == rules[k].1
  {
    if k > 0 {
      FirstMatchIsEarliest(rules[1..], s, k - 1);
    }
  }

  /** With no rule resolving to `Unknown`, the answer is `Unknown` exactly when no rule matches. */
  lemma {:induction false} FirstMatchUnknown(rules: seq<(Pattern, Intent)>, s: string)
    requires forall j :: 0 <= j < |rules| ==> rules[j].1 != Unknown
    ensures FirstMatch(rules, s) == Unknown <==> forall j :: 0 <= j < |rules| ==> !Matches(rules[j].0, s)
  {
    if rules != [] {
      FirstMatchUnknown(rules[1..], s);
      if !Matches(rules[0].0, s) {
        forall j | 0 <= j < |rules| && j > 0 ensures !Matches(rules[j].0, s) <== !Matches(rules[1..][j - 1].0, s) {
        }
      }
    }
  }

  /** One step of the interpreter, from any position of the table. */
  lemma FirstMatchStep(rules: seq<(Pattern, Intent)>, s: string, k: nat)
    requires k < |rules|
    ensures FirstMatch(rules[k..], s) ==
            if Matches(rules[k].0, s) then rules[k].1 else FirstMatch(rules[k + 1..], s)
  {
    assert rules[k..][1..] == rules[k + 1..];
  }

  /** The if-chain of `ruleIntent` is the table interpreted on the lower-cased text. */
  lemma RuleIntentIsTable(t: string)
    ensures RuleIntent(t) == FirstMatch(IntentRules, Lower(t))
  {
    var s := Lower(t);
    var r := IntentRules;
    assert r[0..] == r;
    assert r[8..] == [];
    FirstMatchStep(r, s, 7);
    FirstMatchStep(r, s, 6);
    FirstMatchStep(r, s, 5);
    FirstMatchStep(r, s, 4);
    FirstMatchStep(r, s, 3);
    FirstMatchStep(r, s, 2);
    FirstMatchStep(r, s, 1);
    FirstMatchStep(r, s, 0);
  }

  /**
   * First match wins: when the k-th keyword group is the first to match the lower-cased
   * text, `ruleIntent` returns that group's intent, whatever later groups match too.
   */
  lemma RuleIntentFirstGroupWins(t: string, k: nat)
    requires k < |IntentRules| && Matches(IntentRules[k].0, Lower(t))
    requires forall j :: 0 <= j < k ==> !Matches(IntentRules[j].0, Lower(t))
    ensures RuleIntent(t) == IntentRules[k].1
  {
    RuleIntentIsTable(t);
    FirstMatchIsEarliest(IntentRules, Lower(t), k);
  }

  /** `ruleIntent` falls back to `Unknown` exactly when no keyword group matches. */
  lemma RuleIntentUnknownIff(t: string)
    ensures RuleIntent(t) == Unknown <==>
            forall j :: 0 <= j < |IntentRules| ==> !Matches(IntentRules[j].0, Lower(t))
  {
    RuleIntentIsTable(t);
    FirstMatchUnknown(IntentRules, Lower(t));
  }

  /** Letter case does not matter: an upper-cased message gets the same intent. */
  lemma RuleIntentIgnoresCase(t: string)
    ensures RuleIntent(Upper(t)) == RuleIntent(t)
  {
    LowerOfUpper(t);
  }

  /** A message about both sleep and milk is a crying/sleep question: that group comes first. */
  lemma SleepBeforeMilk()
    ensures RuleIntent("Baby won't SLEEP after milk") == CryingSleep
  {
    var t := "Baby won't SLEEP after milk";
    var s := Lower(t);
    assert t[11] == 'S' && t[12] == 'L' && t[13] == 'E' && t[14] == 'E' && t[15] == 'P';
    assert s[11] == 's' && s[12] == 'l' && s[13] == 'e' && s[14] == 'e' && s[15] == 'p';
    assert s[11..16] == "sleep";
    WordMatches(CryPattern, s, 1, 11);
  }

  /** `/(helper|mdw|maid|permit)/i`: the caregiver flow's test for a domestic-helper question. */
  const HelperTopicPattern := Pattern(["helper", "mdw", "maid", "permit"], [])

  predicate MentionsHelper(text: string) {
    Matches(HelperTopicPattern, Lower(text))
  }

  /**
   * The chat's active flow (as stored in the session) overrides the resolved intent;
   * any other stored value, or none, leaves it as it was.
   */
  function ApplyFlow(flow: Option<string>, text: string, intent: Intent): Intent {
    match flow
    case Some("cry") => CryingSleep
    case Some("nutrition") => Nutrition
    case Some("caregiver") => if MentionsHelper(text) then CaregivingHelper else CaregivingFind
    case Some("advice") => AdviceConflict
    case _ => intent
  }

  /**
   * The four flows, and nothing else, decide the intent regardless of what was resolved
   * before: cry gives crying/sleep, nutrition gives nutrition, advice gives conflicting
   * advice, and caregiver splits on the helper test.
   */
  lemma ApplyFlowOverrides(flow: Option<string>, text: string, i1: Intent, i2: Intent)
    ensures flow == Some("cry") ==> ApplyFlow(flow, text, i1) == CryingSleep
    ensures flow == Some("nutrition") ==> ApplyFlow(flow, text, i1) == Nutrition
    ensures flow == Some("advice") ==> ApplyFlow(flow, text, i1) == AdviceConflict
    ensures flow in {Some("cry"), Some("nutrition"), Some("caregiver"), Some("advice")} ==>
              ApplyFlow(flow, text, i1) == ApplyFlow(flow, text, i2)
    ensures flow !in {Some("cry"), Some("nutrition"), Some("caregiver"), Some("advice")} ==>
              ApplyFlow(flow, text, i1) == i1
    ensures flow == Some("caregiver") ==>
              ApplyFlow(flow, text, i1) in {CaregivingHelper, CaregivingFind} &&
              (ApplyFlow(flow, text, i1) == CaregivingHelper <==> MentionsHelper(text))
  {
  }
}
