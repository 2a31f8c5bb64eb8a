/**
 * Reply assembly: the "More information" link table, the base steps handed to the
 * composer, the two fixed caregiving blocks, and `composeAI`'s layout of a generated
 * reply (opening text, optional link section, disclaimer). The completion request
 * itself is not modelled: its outcome is a value given to the model.
 */
module Compose {
  import opened Text
  import opened Options
  import opened Intents
  import opened OpenAI

  const Disclaimer := "\n\n_Disclaimer: General info only. For emergencies, call 995._"
  const MoreInfoHeader := "\n\n*More information:*\n"
  const Bullet := "• "
  const DefaultOpening := "Let’s take this step by step."

  const SleepLinks := [
    "HealthHub (Sleep Basics): https://www.healthhub.sg/live-healthy/1637/baby_sleep_basics",
    "KKH Baby Sleep Guide: https://www.kkh.com.sg/healtharticles/baby-sleep-basics"]
  const NutritionLinks := [
    "HealthHub (Healthy Diet 0–3): https://www.healthhub.sg/programmes/parent-hub/baby-toddler/childhood-healthy-diet",
    "HPB Recipes: https://www.healthhub.sg/programmes/parent-hub/recipes"]
  const MilestoneLinks := [
    "KKH Developmental Milestones: https://www.kkh.com.sg/healtharticles/developmental-milestones"]
  const ChildcareLinks := [
    "ECDA Preschool / Infantcare Search: https://www.ecda.gov.sg/parents/Pages/Preschool-Search.aspx",
    "LifeSG Preschool Services: https://www.life.gov.sg/services/parenting/preschool"]
  const HelperLinks := [
    "MOM Work Permit (MDW): https://www.mom.gov.sg/passes-and-permits/work-permit-for-migrant-domestic-worker",
    "Apply for MDW Permit: https://www.mom.gov.sg/passes-and-permits/work-permit-for-migrant-domestic-worker/apply"]
  const AdviceLinks := [
    "Families for Life (Parenting): https://familiesforlife.sg/parenting",
    "HealthHub Parenting Tips: https://www.healthhub.sg/live-healthy/1144/mental_health_tips_for_parents"]
  const WellbeingLinks := [
    "IMH Helpline (24h): 6389 2222",
    "SOS (Samaritans of SG): 1767"]

  /** `SG_LINKS[intent] || []`: the reference lines for an intent, in table order. */
  function Links(i: Intent): seq<string> {
    match i
    case CryingSleep => SleepLinks
    case Nutrition => NutritionLinks
    case Milestones => MilestoneLinks
    case CaregivingFind => ChildcareLinks
    case CaregivingHelper => HelperLinks
    case AdviceConflict => AdviceLinks
    case WellbeingCheckin => WellbeingLinks
    case _ => []
  }

  const NutritionSteps :=
    "0–6m: milk on demand; 6–12m: start solids (iron-rich daily, one new food at a time); >12m: family meals; avoid choking."
  const SoothingSteps :=
    "Soothing: feed → burp 5–10 min → swaddle + white noise → dim lights. Keep age-appropriate wake windows."
  const ResolverSteps :=
    "Resolver: 1) Prefer HealthHub guidance 2) Pick one approach that fits family 3) Try for 3–5 days, then review."
  const MilestoneSteps :=
    "Steady progress: motor (tummy time), language (babble→words), social (smiles→joint attention). See GP if worried."
  const ResetSteps :=
    "2–5 min reset: box breathing 4-4-4-4; choose one tiny win for today; ask for help when needed."

  /** The base steps the router hands to the composer for each intent; none for the others. */
  function BaseSteps(i: Intent): string {
    match i
    case Nutrition => NutritionSteps
    case CryingSleep => SoothingSteps
    case AdviceConflict => ResolverSteps
    case Milestones => MilestoneSteps
    case WellbeingCheckin => ResetSteps
    case _ => ""
  }

  /** `blockInfantcare()`: the fixed reply for finding infant care. */
  const BlockInfantcare :=
    "Steps to find infantcare (SG):\n"
    + "1) Use ECDA/LifeSG to shortlist by location, hours, fees.\n"
    + "2) Visit 2–3 centres: hygiene, caregiver interaction, routine.\n"
    + "3) Join waitlist; ask about subsidies & transition.\n"
    + "*More information:*\n"
    + "• ECDA: https://www.ecda.gov.sg/parents/Pages/Preschool-Search.aspx\n"
    + "• LifeSG: https://www.life.gov.sg/services/parenting/preschool"
    + Disclaimer

  /** `blockHelper()`: the fixed reply for hiring a domestic helper. */
  const BlockHelper :=
    "Hire a helper (MDW) in SG:\n"
    + "1) Check MOM eligibility; agency vs direct-hire.\n"
    + "2) Interview; verify experience; define duties in writing.\n"
    + "3) Insurance; IPA → arrival → permit & orientation.\n"
    + "*More information:*\n"
    + "• MOM Work Permit (MDW): https://www.mom.gov.sg/passes-and-permits/work-permit-for-migrant-domestic-worker\n"
    + "• Apply: https://www.mom.gov.sg/passes-and-permits/work-permit-for-migrant-domestic-worker/apply"
    + Disclaimer

  /** Both canned caregiving replies end with the disclaimer, as composed replies do. */
  lemma BlocksEndWithDisclaimer()
    ensures |BlockInfantcare| >= |Disclaimer| && BlockInfantcare[|BlockInfantcare| - |Disclaimer|..] == Disclaimer
    ensures |BlockHelper| >= |Disclaimer| && BlockHelper[|BlockHelper| - |Disclaimer|..] == Disclaimer
  {
  }

  /** The model's text trimmed, or the default opening when it is missing or blank. */
  function Opening(content: Option<string>): string {
    if content.Some? && Trim(content.value) != "" then Trim(content.value) else DefaultOpening
  }

  /** The link section: a header and one bullet line per link, or nothing for an empty list. */
  function MoreInfo(refs: seq<string>): string {
    if |refs| > 0 then MoreInfoHeader + Join(Bullets(refs), '\n') else ""
  }

  function Bullets(refs: seq<string>): seq<string> {
    seq(|refs|, k requires 0 <= k < |refs| => Bullet + refs[k])
  }

  /** The reply `composeAI` builds from the model's text. */
  function Assemble(i: Intent, content: Option<string>): string {
    Opening(content) + MoreInfo(Links(i)) + Disclaimer
  }

  /** `composeAI`: the request's outcome, assembled into a reply, through `callOpenAI`. */
  function ComposeAI(i: Intent, raw: Outcome<Option<string>>): Outcome<string> {
    CallOpenAI(match raw
      case Returned(c) => Returned(Assemble(i, c))
      case Threw(e) => Threw(e))
  }

  /**
   * The opening is never empty and never starts or ends with white space; it is the
   * trimmed model text when that has any non-blank character, and the default otherwise.
   */
  lemma OpeningShape(content: Option<string>)
    ensures Opening(content) != []
    ensures !IsWhitespace(Opening(content)[0]) && !IsWhitespace(Opening(content)[|Opening(content)| - 1])
    ensures content.Some? && !IsBlank(content.value) ==> Opening(content) == Trim(content.value)
    ensures content.None? || IsBlank(content.value) ==> Opening(content) == DefaultOpening
  {
    if content.Some? {
      TrimBounds(content.value);
    }
    assert DefaultOpening[0] == 'L' && DefaultOpening[|DefaultOpening| - 1] == '.';
  }

  /** Where the bullet line of the k-th link starts, counted from the start of the link section. */
  function LinkLineStart(refs: seq<string>, k: nat): nat
    requires k < |refs|
  {
    |MoreInfoHeader| + JoinOffset(Bullets(refs), k)
  }

  /**
   * The link section lists every link on a bullet line of its own, in table order: the
   * k-th line is followed by a line break and then the (k+1)-th, and the last one ends
   * the section.
   */
  lemma MoreInfoLines(refs: seq<string>, k: nat)
    requires k < |refs|
    ensures StartsWith(MoreInfo(refs), MoreInfoHeader)
    ensures IsAt(MoreInfo(refs), LinkLineStart(refs, k), Bullet + refs[k])
    ensures k + 1 < |refs| ==>
              var end := LinkLineStart(refs, k) + |Bullet| + |refs[k]|;
              end < |MoreInfo(refs)| && MoreInfo(refs)[end] == '\n' && LinkLineStart(refs, k + 1) == end + 1
    ensures k + 1 == |refs| ==> LinkLineStart(refs, k) + |Bullet| + |refs[k]| == |MoreInfo(refs)|
  {
    var bs := Bullets(refs);
    var m := MoreInfo(refs);
    JoinPieceAt(bs, '\n', k);
    assert m == MoreInfoHeader + Join(bs, '\n');
    assert m[|MoreInfoHeader|..] == Join(bs, '\n');
    var p := JoinOffset(bs, k);
    assert m[|MoreInfoHeader| + p..|MoreInfoHeader| + p + |bs[k]|] == Join(bs, '\n')[p..p + |bs[k]|];
  }

  /** The frame of any text built as opening, link section and disclaimer. */
  lemma FrameOf(o: string, refs: seq<string>)
    ensures var r := o + MoreInfo(refs) + Disclaimer;
      && StartsWith(r, o)
      && r[|r| - |Disclaimer|..] == Disclaimer
      && (refs == [] <==> r == o + Disclaimer)
      && (refs != [] ==> IsAt(r, |o|, MoreInfoHeader))
  {
    var m := MoreInfo(refs);
    var r := o + m + Disclaimer;
    assert r[..|o|] == o;
    assert r[|r| - |Disclaimer|..] == Disclaimer;
    if refs != [] {
      assert m == MoreInfoHeader + Join(Bullets(refs), '\n');
      assert |r| > |o + Disclaimer|;
      assert r[|o|..|o| + |MoreInfoHeader|] == MoreInfoHeader;
    }
  }

  /** The k-th link line of the section, seen from the whole text. */
  lemma LineOf(o: string, refs: seq<string>, k: nat)
    requires k < |refs|
    ensures IsAt(o + MoreInfo(refs) + Disclaimer, |o| + LinkLineStart(refs, k), Bullet + refs[k])
  {
    var m := MoreInfo(refs);
    var r := o + m + Disclaimer;
    MoreInfoLines(refs, k);
    var p := LinkLineStart(refs, k);
    var w := Bullet + refs[k];
    assert m[p..p + |w|] == w;
    assert r[|o| + p..|o| + p + |w|] == m[p..p + |w|];
  }

  /**
   * Layout of a composed reply: it starts with the opening and always ends with the
   * disclaimer; in between comes the "More information" section, exactly when the
   * intent has links, listing each of them on its own bullet line in table order.
   */
  lemma ReplyLayout(i: Intent, content: Option<string>)
    ensures StartsWith(Assemble(i, content), Opening(content))
    ensures |Assemble(i, content)| >= |Disclaimer|
    ensures Assemble(i, content)[|Assemble(i, content)| - |Disclaimer|..] == Disclaimer
    ensures Links(i) == [] <==> Assemble(i, content) == Opening(content) + Disclaimer
    ensures Links(i) != [] ==> IsAt(Assemble(i, content), |Opening(content)|, MoreInfoHeader)
    ensures forall k :: 0 <= k < |Links(i)| ==>
              IsAt(Assemble(i, content), |Opening(content)| + LinkLineStart(Links(i), k), Bullet + Links(i)[k])
  {
    var o, refs := Opening(content), Links(i);
    assert Assemble(i, content) == o + MoreInfo(refs) + Disclaimer;
    FrameOf(o, refs);
    forall k | 0 <= k < |refs|
      ensures IsAt(o + MoreInfo(refs) + Disclaimer, |o| + LinkLineStart(refs, k), Bullet + refs[k])
    {
      LineOf(o, refs, k);
    }
  }
}
