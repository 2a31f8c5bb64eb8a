/**
 * Reply-keyboard label texts. Some clients send a button's label as a plain message;
 * four case-insensitive patterns recognise those labels and select a flow:
 *   `^\s*🍼?\s*Crying\s*\/\s*Sleep\s*$`, `^\s*🥣?\s*Nutrition\s*$`,
 *   `^\s*👩‍🍼?\s*Caregiving\s*$` and the unanchored `Conflicting.*Advice`.
 *
 * The three anchored patterns are regex literals without the `u` flag, so `?` applies
 * to the emoji's last UTF-16 code unit only, not to the whole emoji. On well-formed
 * text this makes the emoji mandatory (`LabelAsWritten`), although the `?` was
 * evidently meant to make it optional (`LabelMatches`, which the router uses).
 */
module Labels {
  import opened Text
  import opened Options

  const CryEmoji := "\U{1F37C}"
  const CryWords := ["crying", "/", "sleep"]
  const NutritionEmoji := "\U{1F963}"
  const NutritionWords := ["nutrition"]
  const CaregivingEmoji := "\U{1F469}\U{200D}\U{1F37C}"
  const CaregivingWords := ["caregiving"]

  /**
   * `\s*W1\s*W2 … \s*$` on lower-cased text: the words in order, separated and followed
   * only by white space. (Every word used here starts with a non-space character, so
   * skipping all white space before a word is what the backtracking matcher does.)
   */
  predicate SpacedWords(s: string, words: seq<string>)
    decreases |words|
  {
    if words == [] then IsBlank(s)
    else
      var a := TrimStart(s);
      StartsWith(a, words[0]) && SpacedWords(a[|words[0]|..], words[1..])
  }

  /** `^\s*E?\s*W1\s*…$` with flag i, read as intended: the emoji E may be present or not. */
  predicate LabelMatches(t: string, emoji: string, words: seq<string>) {
    var a := TrimStart(Lower(t));
    SpacedWords(if StartsWith(a, emoji) then a[|emoji|..] else a, words)
  }

  /** The same regex as JavaScript runs it without the `u` flag: the emoji is required. */
  predicate LabelAsWritten(t: string, emoji: string, words: seq<string>) {
    var a := TrimStart(Lower(t));
    StartsWith(a, emoji) && SpacedWords(a[|emoji|..], words)
  }

  predicate IsCryLabel(t: string) { LabelMatches(t, CryEmoji, CryWords) }
  predicate IsNutritionLabel(t: string) { LabelMatches(t, NutritionEmoji, NutritionWords) }
  predicate IsCaregivingLabel(t: string) { LabelMatches(t, CaregivingEmoji, CaregivingWords) }

  /** `/Conflicting.*Advice/i`: "conflicting", then "advice" later on the same line. */
  predicate IsAdviceLabel(t: string) {
    var s := Lower(t);
    exists i, j :: 0 <= i <= |s| && i + 11 <= j <= |s| &&
      IsAt(s, i, "conflicting") && IsAt(s, j, "advice") &&
      forall k :: i + 11 <= k < j ==> !IsLineTerminator(s[k])
  }

  /**
   * The flow a label text selects. The router applies the four tests one after the
   * other, each overwriting the chat's flow, so the last test that matches wins.
   */
  function LabelFlow(t: string): Option<string> {
    if IsAdviceLabel(t) then Some("advice")
    else if IsCaregivingLabel(t) then Some("caregiver")
    else if IsNutritionLabel(t) then Some("nutrition")
    else if IsCryLabel(t) then Some("cry")
    else None
  }

  /** As written, a label typed without its emoji is never recognised. */
  lemma LabelAsWrittenNeedsEmoji(t: string, emoji: string, words: seq<string>)
    requires LabelAsWritten(t, emoji, words)
    ensures StartsWith(TrimStart(Lower(t)), emoji)
    ensures LabelMatches(t, emoji, words)
  {
  }

  lemma SleepWordMatches()
    ensures SpacedWords(" sleep", ["sleep"])
  {
    TrimStartPadded(" ", "sleep");
    assert " " + "sleep" == " sleep";
    assert "sleep"[5..] == [];
  }

  lemma SlashSleepMatches()
    ensures SpacedWords(" / sleep", ["/", "sleep"])
  {
    TrimStartSkips(" / sleep");
    assert " / sleep"[1..] == "/ sleep";
    TrimStartStops("/ sleep");
    assert "/ sleep"[1..] == " sleep";
    SleepWordMatches();
    assert ["/", "sleep"][1..] == ["sleep"];
  }

  lemma CrySlashSleepMatches()
    ensures SpacedWords("crying / sleep", CryWords)
  {
    var s := "crying / sleep";
    TrimStartStops(s);
    assert CryWords[0] == "crying" && CryWords[1..] == ["/", "sleep"];
    assert s[..6] == "crying" && s[6..] == " / sleep";
    SlashSleepMatches();
  }

  /** The counterexample: the plain label "Crying / Sleep" selects no flow as written, but does as intended. */
  lemma PlainCryLabelMissedAsWritten()
    ensures !LabelAsWritten("Crying / Sleep", CryEmoji, CryWords)
    ensures IsCryLabel("Crying / Sleep")
  {
    var s := "crying / sleep";
    assert Lower("Crying / Sleep") == s;
    assert s[0] == 'c';
    TrimStartStops(s);
    assert TrimStart(Lower("Crying / Sleep")) == s;
    assert !StartsWith(s, CryEmoji);
    CrySlashSleepMatches();
  }

  /** Skipping white space before the words makes no difference. */
  lemma SpacedWordsSkipsSpace(s: string, words: seq<string>)
    requires words != []
    ensures SpacedWords(TrimStart(s), words) == SpacedWords(s, words)
  {
    var a := TrimStart(s);
    assert TrimStart(a) == a;
  }

  /**
   * As intended, the emoji prefix is optional: putting the emoji in front of a text that
   * does not already start with it changes nothing about whether the label matches.
   */
  lemma EmojiPrefixOptional(t: string, emoji: string, words: seq<string>)
    requires emoji != [] && !IsWhitespace(emoji[0]) && Lower(emoji) == emoji
    requires words != []
    requires !StartsWith(TrimStart(Lower(t)), emoji)
    ensures LabelMatches(emoji + t, emoji, words) == LabelMatches(t, emoji, words)
  {
    LowerAppend(emoji, t);
    var a := TrimStart(Lower(emoji + t));
    assert Lower(emoji + t) == emoji + Lower(t);
    assert a == emoji + Lower(t);
    assert StartsWith(a, emoji) && a[|emoji|..] == Lower(t);
    SpacedWordsSkipsSpace(Lower(t), words);
  }

  /** A spaced match of words without the letter f holds no f. */
  lemma {:induction false} SpacedWordsLackF(s: string, words: seq<string>)
    requires SpacedWords(s, words)
    requires forall k :: 0 <= k < |words| ==> 'f' !in words[k]
    ensures 'f' !in s
    decreases |words|
  {
    if words == [] {
      assert forall k :: 0 <= k < |s| ==> s[k] != 'f';
    } else {
      var a := TrimStart(s);
      var w := words[0];
      forall k | 0 <= k < |words[1..]| ensures 'f' !in words[1..][k] {
        assert words[1..][k] == words[k + 1];
      }
      SpacedWordsLackF(a[|w|..], words[1..]);
      BlankPrefixLacksF(s);
      TrimStartSplits(s);
      StartsWithSplits(a, w);
    }
  }

  /** The white space `TrimStart` removes holds no f. */
  lemma BlankPrefixLacksF(l: string)
    ensures 'f' !in l[..|l| - |TrimStart(l)|]
  {
    var d := |l| - |TrimStart(l)|;
    forall k | 0 <= k < d ensures l[..d][k] != 'f' {
      assert IsWhitespace(l[k]);
    }
  }

  /** A sequence that starts with `w` is `w` followed by the rest. */
  lemma StartsWithSplits(a: string, w: string)
    requires StartsWith(a, w)
    ensures a == w + a[|w|..]
  {
    assert a == a[..|w|] + a[|w|..];
  }

  /** A sequence is the part `TrimStart` removes followed by what it keeps. */
  lemma TrimStartSplits(l: string)
    ensures l == l[..|l| - |TrimStart(l)|] + TrimStart(l)
  {
  }

  /** White space, the emoji, then a spaced match, none with an f: the whole holds no f. */
  lemma EmojiLabelLacksF(l: string, emoji: string, words: seq<string>)
    requires StartsWith(TrimStart(l), emoji) && SpacedWords(TrimStart(l)[|emoji|..], words)
    requires 'f' !in emoji && forall k :: 0 <= k < |words| ==> 'f' !in words[k]
    ensures 'f' !in l
  {
    var a := TrimStart(l);
    SpacedWordsLackF(a[|emoji|..], words);
    BlankPrefixLacksF(l);
    TrimStartSplits(l);
    StartsWithSplits(a, emoji);
  }

  /** White space, then a spaced match of words without an f: the whole holds no f. */
  lemma PlainLabelLacksF(l: string, words: seq<string>)
    requires SpacedWords(TrimStart(l), words)
    requires forall k :: 0 <= k < |words| ==> 'f' !in words[k]
    ensures 'f' !in l
  {
    SpacedWordsLackF(TrimStart(l), words);
    BlankPrefixLacksF(l);
    TrimStartSplits(l);
  }

  /** A label text holds only white space, the emoji and the label's words, so no f if none of those has one. */
  lemma LabelLacksF(t: string, emoji: string, words: seq<string>)
    requires LabelMatches(t, emoji, words)
    requires 'f' !in emoji && forall k :: 0 <= k < |words| ==> 'f' !in words[k]
    ensures 'f' !in Lower(t)
  {
    var l := Lower(t);
    if StartsWith(TrimStart(l), emoji) {
      EmojiLabelLacksF(l, emoji, words);
    } else {
      PlainLabelLacksF(l, words);
    }
  }

  /** A spaced match begins, after white space, with its first word. */
  lemma SpacedWordsHead(s: string, words: seq<string>)
    requires words != [] && SpacedWords(s, words)
    ensures StartsWith(TrimStart(s), words[0])
  {
  }

  /** How an anchored label begins: with its emoji, or else directly with its first word. */
  lemma LabelStart(t: string, emoji: string, words: seq<string>)
    requires emoji != [] && words != [] && |words[0]| >= 2 && LabelMatches(t, emoji, words)
    ensures var a := TrimStart(Lower(t));
      |a| >= 2 && (a[0] == emoji[0] || (a[0] == words[0][0] && a[1] == words[0][1]))
  {
    var a := TrimStart(Lower(t));
    if StartsWith(a, emoji) {
      EmojiStart(a, emoji, words);
    } else {
      WordStart(a, words);
    }
  }

  /** The emoji case of `LabelStart`. */
  lemma EmojiStart(a: string, emoji: string, words: seq<string>)
    requires emoji != [] && words != [] && |words[0]| >= 2
    requires StartsWith(a, emoji) && SpacedWords(a[|emoji|..], words)
    ensures |a| >= 2 && a[0] == emoji[0]
  {
    SpacedWordsHead(a[|emoji|..], words);
    assert a[..|emoji|][0] == a[0];
  }

  /** The case of `LabelStart` without the emoji. */
  lemma WordStart(a: string, words: seq<string>)
    requires words != [] && |words[0]| >= 2
    requires (a == [] || !IsWhitespace(a[0])) && SpacedWords(a, words)
    ensures |a| >= 2 && a[0] == words[0][0] && a[1] == words[0][1]
  {
    SpacedWordsHead(a, words);
    TrimStartStops(a);
    assert a[..|words[0]|][0] == a[0] && a[..|words[0]|][1] == a[1];
  }

  /** Two anchored labels whose emojis and first words start differently never both match. */
  lemma AnchoredExclusive(t: string, e1: string, w1: seq<string>, e2: string, w2: seq<string>)
    requires e1 != [] && e2 != [] && e1[0] != e2[0]
    requires w1 != [] && w2 != [] && |w1[0]| >= 2 && |w2[0]| >= 2
    requires w1[0][0] != w2[0][0] || w1[0][1] != w2[0][1]
    requires w1[0][0] != e2[0] && w2[0][0] != e1[0]
    requires LabelMatches(t, e1, w1)
    ensures !LabelMatches(t, e2, w2)
  {
    LabelStart(t, e1, w1);
    if LabelMatches(t, e2, w2) {
      LabelStart(t, e2, w2);
    }
  }

  /** "conflicting" contains an f, which none of the anchored labels has. */
  lemma AdviceHasF(t: string)
    requires IsAdviceLabel(t)
    ensures 'f' in Lower(t)
  {
    var s := Lower(t);
    var i, j :| 0 <= i <= |s| && i + 11 <= j <= |s| && IsAt(s, i, "conflicting") && IsAt(s, j, "advice") &&
      forall k :: i + 11 <= k < j ==> !IsLineTerminator(s[k]);
    assert "conflicting"[3] == 'f';
    assert s[i + 3] == s[i..i + 11][3];
  }

  /** The crying/sleep, nutrition and caregiving labels never match the same text. */
  lemma AnchoredLabelsExclusive(t: string)
    ensures !(IsCryLabel(t) && IsNutritionLabel(t))
    ensures !(IsCryLabel(t) && IsCaregivingLabel(t))
    ensures !(IsNutritionLabel(t) && IsCaregivingLabel(t))
  {
    assert CryEmoji[0] == '\U{1F37C}' && NutritionEmoji[0] == '\U{1F963}' && CaregivingEmoji[0] == '\U{1F469}';
    assert CryWords[0][1] == 'r' && NutritionWords[0][0] == 'n' && CaregivingWords[0][1] == 'a';
    if IsCryLabel(t) {
      AnchoredExclusive(t, CryEmoji, CryWords, NutritionEmoji, NutritionWords);
      AnchoredExclusive(t, CryEmoji, CryWords, CaregivingEmoji, CaregivingWords);
    }
    if IsNutritionLabel(t) {
      AnchoredExclusive(t, NutritionEmoji, NutritionWords, CaregivingEmoji, CaregivingWords);
    }
  }

  /** A label without the letter f in its emoji or words never matches a conflicting-advice text. */
  lemma AdviceIsNotLabel(t: string, emoji: string, words: seq<string>)
    requires IsAdviceLabel(t)
    requires 'f' !in emoji && forall k :: 0 <= k < |words| ==> 'f' !in words[k]
    ensures !LabelMatches(t, emoji, words)
  {
    AdviceHasF(t);
    if LabelMatches(t, emoji, words) {
      LabelLacksF(t, emoji, words);
    }
  }

  /** None of the anchored labels' emojis and words holds the letter f. */
  lemma LabelsLackF()
    ensures 'f' !in CryEmoji && 'f' !in NutritionEmoji && 'f' !in CaregivingEmoji
    ensures forall k :: 0 <= k < |CryWords| ==> 'f' !in CryWords[k]
    ensures forall k :: 0 <= k < |NutritionWords| ==> 'f' !in NutritionWords[k]
    ensures forall k :: 0 <= k < |CaregivingWords| ==> 'f' !in CaregivingWords[k]
  {
  }

  /** A text naming conflicting advice is none of the anchored labels: they have no f. */
  lemma AdviceExcludesAnchored(t: string)
    requires IsAdviceLabel(t)
    ensures !IsCryLabel(t) && !IsNutritionLabel(t) && !IsCaregivingLabel(t)
  {
    LabelsLackF();
    AdviceIsNotLabel(t, CryEmoji, CryWords);
    AdviceIsNotLabel(t, NutritionEmoji, NutritionWords);
    AdviceIsNotLabel(t, CaregivingEmoji, CaregivingWords);
  }

  /**
   * Each reply-keyboard label selects its own flow: the crying/sleep label `cry`, the
   * nutrition label `nutrition`, the caregiving label `caregiver` and the conflicting-advice
   * label `advice`; a text matching none of them selects nothing.
   */
  lemma LabelFlowSelects(t: string)
    ensures IsCryLabel(t) ==> LabelFlow(t) == Some("cry")
    ensures IsNutritionLabel(t) ==> LabelFlow(t) == Some("nutrition")
    ensures IsCaregivingLabel(t) ==> LabelFlow(t) == Some("caregiver")
    ensures IsAdviceLabel(t) ==> LabelFlow(t) == Some("advice")
    ensures LabelFlow(t) == None <==>
              !IsCryLabel(t) && !IsNutritionLabel(t) && !IsCaregivingLabel(t) && !IsAdviceLabel(t)
  {
    AnchoredLabelsExclusive(t);
    if IsAdviceLabel(t) {
      AdviceExcludesAnchored(t);
    }
  }

  /** A single-word label typed in any case, without its emoji, matches that label. */
  lemma OneWordLabelMatches(t: string, emoji: string, word: string)
    requires Lower(t) == word && word != [] && !IsWhitespace(word[0]) && !StartsWith(word, emoji)
    ensures LabelMatches(t, emoji, [word])
  {
    TrimStartStops(word);
    assert word[|word|..] == [];
  }

  /** The crying/sleep caption typed without its emoji selects the `cry` flow. */
  lemma TypedCryLabelSelectsCry()
    ensures LabelFlow("Crying / Sleep") == Some("cry")
  {
    PlainCryLabelMissedAsWritten();
    LabelFlowSelects("Crying / Sleep");
  }

  /** The nutrition caption typed without its emoji selects the `nutrition` flow. */
  lemma TypedNutritionLabelSelectsNutrition()
    ensures LabelFlow("Nutrition") == Some("nutrition")
  {
    assert Lower("Nutrition") == "nutrition";
    assert "nutrition"[..1][0] != NutritionEmoji[0];
    OneWordLabelMatches("Nutrition", NutritionEmoji, "nutrition");
    LabelFlowSelects("Nutrition");
  }

  /** The caregiving caption typed without its emoji selects the `caregiver` flow. */
  lemma TypedCaregivingLabelSelectsCaregiver()
    ensures LabelFlow("Caregiving") == Some("caregiver")
  {
    assert Lower("Caregiving") == "caregiving";
    assert "caregiving"[..|CaregivingEmoji|][0] != CaregivingEmoji[0];
    OneWordLabelMatches("Caregiving", CaregivingEmoji, "caregiving");
    LabelFlowSelects("Caregiving");
  }
}
