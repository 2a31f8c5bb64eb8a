/**
 * The safety gate: two case-insensitive patterns over the (trimmed) message text.
 * An emergency cue is answered with a fixed "call 995" reply, an off-limits topic with a
 * fixed SOS/IMH reply; the router tests the emergency pattern first.
 */
module Safety {
  import opened Text

  /** `blue lips|not ?breathing|unresponsive|seizure|stiff neck|bulging fontanelle|fever\s?(?:40|4[01])|difficulty breathing` */
  const EmergencyPattern := Pattern(
    ["blue lips", "not breathing", "notbreathing", "unresponsive", "seizure",
     "stiff neck", "bulging fontanelle", "difficulty breathing"],
    [("fever", "40"), ("fever", "41")])

  /** `self[- ]harm|suicide|sexual|violence|illegal|loan|money lending` */
  const OffLimitsPattern := Pattern(
    ["self-harm", "self harm", "suicide", "sexual", "violence", "illegal", "loan", "money lending"],
    [])

  const EmergencyReply := "⚠️ This may be urgent. Please call 995 or go to the nearest A&E now."
  const OffLimitsReply := "Sorry, I can’t assist with that topic. If you feel unsafe, call SOS (1767) or IMH (6389 2222)."

  predicate IsEmergency(text: string) {
    Matches(EmergencyPattern, Lower(text))
  }

  predicate IsOffLimits(text: string) {
    Matches(OffLimitsPattern, Lower(text))
  }

  /**
   * `fever\s?(?:40|4[01])`: "fever", then at most one white-space character, then 40 or
   * 41, anywhere in the text and in any letter case, is an emergency.
   */
  lemma FeverReadingIsEmergency(text: string, i: nat, reading: string)
    requires reading == "40" || reading == "41"
    requires IsAt(Lower(text), i, "fever")
    requires IsAt(Lower(text), i + 5, reading) ||
             (i + 5 < |Lower(text)| && IsWhitespace(Lower(text)[i + 5]) && IsAt(Lower(text), i + 6, reading))
    ensures IsEmergency(text)
  {
    var s := Lower(text);
    var k := if reading == "40" then 0 else 1;
    assert EmergencyPattern.spaced[k] == ("fever", reading);
    assert ContainsSpaced(s, EmergencyPattern.spaced[k].0, EmergencyPattern.spaced[k].1);
  }

  /** Both replies name the help line they send the parent to. */
  lemma SafetyRepliesNameHelpLines()
    ensures Contains(EmergencyReply, "995")
    ensures Contains(OffLimitsReply, "1767") && Contains(OffLimitsReply, "6389 2222")
  {
    var e := EmergencyReply;
    assert e[35] == '9' && e[36] == '9' && e[37] == '5';
    assert e[35..38] == "995";
    assert IsAt(e, 35, "995");
    var r := OffLimitsReply;
    assert r[69] == '1' && r[70] == '7' && r[71] == '6' && r[72] == '7';
    assert r[69..73] == "1767";
    assert IsAt(r, 69, "1767");
    assert r[83] == '6' && r[84] == '3' && r[85] == '8' && r[86] == '9' && r[87] == ' ';
    assert r[88] == '2' && r[89] == '2' && r[90] == '2' && r[91] == '2';
    assert r[83..92] == "6389 2222";
    assert IsAt(r, 83, "6389 2222");
  }

  /** Both tests ignore letter case: an upper-cased message is judged the same. */
  lemma SafetyIgnoresCase(text: string)
    ensures IsEmergency(Upper(text)) == IsEmergency(text)
    ensures IsOffLimits(Upper(text)) == IsOffLimits(text)
  {
    LowerOfUpper(text);
  }
}
