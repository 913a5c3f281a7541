/** The one-line summary of a day on the game page: the modifier's name, the
    option's text and the signed score in fixed-width columns, the day
    number, and the number of tokens the day gained and spent. */
module DayLink {
  import opened Wrappers
  import opened Text

  datatype ModifierInfo = ModifierInfo(name: string)

  datatype OptionInfo = OptionInfo(name: string, text: string)

  /** `DayLinkData`: a day as the page receives it. The completion fields are
      strings or null. */
  datatype DayLinkData = DayLinkData(
    challengeModifierId: string,
    modifierOptionId: string,
    part1Completed: Option<string>,
    part2Completed: Option<string>,
    challengeModifierRerollsUsed: int,
    modifierOptionRerollsUsed: int,
    challengeModifier: Option<ModifierInfo>,
    modifierOption: Option<OptionInfo>,
    netScore: int)

  /** What the component shows: a placeholder row for a day without data, or
      the linked summary with its token counts. */
  datatype DayLinkView =
    | Placeholder(dayText: string)
    | Summary(href: string, dayDataString: string, dayText: string, tokensGained: int, tokensSpent: int)

  /** JavaScript truthiness of a `string | null`: set and not empty. */
  predicate Truthy(v: Option<string>) { v.Some? && v.value != "" }

  /** `dayNumber < 10 ? "\u2007" + dayNumber : dayNumber`: a figure space in
      front of a one-digit day. */
  function DayNumberText(n: int): (r: string)
    ensures |r| >= |IntString(n)| && r[|r| - |IntString(n)|..] == IntString(n)
    ensures n < 10 <==> |r| > |IntString(n)|
    ensures n < 10 ==> |r| == |IntString(n)| + 1 && r[0] == FigureSpace
    ensures n >= 10 ==> r == IntString(n)
    ensures 0 <= n < 100 ==> |r| == 2
  {
    if n < 0 then [FigureSpace] + IntString(n)
    else
      NatDigitsLength(n, 1);
      NatDigitsLength(n, 2);
      if n < 10 then [FigureSpace] + IntString(n) else IntString(n)
  }

  /** The modifier's name, or nothing when the day has no modifier. */
  function ChallengeModifierText(d: DayLinkData): (r: string)
    ensures r == "" <==> d.challengeModifier.None? || d.challengeModifier.value.name == ""
    ensures r != "" ==> r == d.challengeModifier.value.name
  {
    if d.challengeModifier.Some? then d.challengeModifier.value.name else ""
  }

  /** The option's text, or nothing when the day has no option or the text
      is empty. */
  function ModifierOptionText(d: DayLinkData): (r: string)
    ensures r == "" <==> d.modifierOption.None? || d.modifierOption.value.text == ""
    ensures r != "" ==> r == d.modifierOption.value.text
  {
    if d.modifierOption.Some? && d.modifierOption.value.text != "" then d.modifierOption.value.text else ""
  }

  /** The score column: the decimal net score, with a `+` in front when it is
      not negative. Reading it back gives the net score. */
  function SignedScore(netScore: int): (r: string)
    ensures IsNumeral(r) && ParseInt(r) == netScore
    ensures r[0] == '+' <==> netScore >= 0
    ensures r[0] == '-' <==> netScore < 0
    ensures |r| == |NatDigits(if netScore < 0 then -netScore else netScore)| + 1
  {
    ParseIntString(netScore);
    if netScore >= 0 then "+" + IntString(netScore) else IntString(netScore)
  }

  /** `dayDataString` as written. The two `cond && "\u2002".repeat(...)` fields
      interpolate the text "false" when `cond` fails. `WrittenColumns` places
      the option, the score and the fillers. */
  function DayDataString(modifier: string, option: string, score: string): (r: string)
    ensures |r| == Max(26, |modifier|) + 1 + (if |option| < 18 then 18 else |option| + 5)
                   + (if |score| < 6 then 13 else |score| + 12) + 1
    ensures r[..|modifier|] == modifier && r[Max(26, |modifier|)] == 'd'
    ensures forall i :: |modifier| <= i < Max(26, |modifier|) ==> r[i] == EnSpace
  {
    (PadEnd(modifier, 26) + "d") + option + OptionFill(option) + (score + " points") + (ScoreFill(score) + " ")
  }

  /** What the line as written puts after the option: en spaces up to 18
      columns, or "false". */
  function OptionFill(option: string): (f: string)
    ensures |option| < 18 ==> |f| == 18 - |option| && forall i :: 0 <= i < |f| ==> f[i] == EnSpace
    ensures |option| >= 18 ==> f == "false"
  {
    if |option| < 18 then EnSpaces(18 - |option|) else "false"
  }

  /** What the line as written puts after " points": en spaces up to 6
      columns for the score, or "false". */
  function ScoreFill(score: string): (f: string)
    ensures |score| < 6 ==> |f| == 6 - |score| && forall i :: 0 <= i < |f| ==> f[i] == EnSpace
    ensures |score| >= 6 ==> f == "false"
  {
    if |score| < 6 then EnSpaces(6 - |score|) else "false"
  }

  /** Where the pieces of `a + b + c + d + e` sit, read from the left. */
  lemma Splice(a: string, b: string, c: string, d: string, e: string)
    ensures var r := a + b + c + d + e;
            var k := |a| + |b|;
            && r[|a|..k] == b
            && r[k..k + |c|] == c
            && r[k + |c|..k + |c| + |d|] == d
            && r[k + |c| + |d|..] == e
  {
    var r := a + b + c + d + e;
    assert r == a + (b + (c + (d + e)));
    assert r[|a|..] == b + (c + (d + e));
    assert r[|a| + |b|..] == c + (d + e);
    assert r[|a| + |b| + |c|..] == d + e;
  }

  /** The line as written, column by column: the option's text right after
      the `d`, then its filler, then the score and " points", then the
      score's filler, then an ASCII space. */
  lemma WrittenColumns(modifier: string, option: string, score: string)
    ensures var r := DayDataString(modifier, option, score);
            var o := Max(26, |modifier|) + 1;
            var p := o + |option| + |OptionFill(option)|;
            && r[o..o + |option|] == option
            && r[o + |option|..p] == OptionFill(option)
            && r[p..p + |score| + 7] == score + " points"
            && r[p + |score| + 7..|r| - 1] == ScoreFill(score)
            && r[|r| - 1] == ' '
  {
    Splice(PadEnd(modifier, 26) + "d", option, OptionFill(option), score + " points", ScoreFill(score) + " ");
  }

  /** `dayDataString` with the empty string in place of "false". */
  function DayDataStringIntended(modifier: string, option: string, score: string): (r: string)
    ensures |r| == Max(26, |modifier|) + 1 + Max(18, |option|) + Max(13, |score| + 7) + 1
  {
    PadEnd(modifier, 26) + "d" + PadEnd(option, 18) + PadEnd(score + " points", 13) + " "
  }

  /** The intended line has fixed-width columns: the modifier's name in a
      column at least 26 wide, then "d", the option's text in a column at
      least 18 wide, then the score and " points" in a column at least 13
      wide, then an ASCII space; every filler is an en space. */
  lemma IntendedColumns(modifier: string, option: string, score: string)
    ensures var r := DayDataStringIntended(modifier, option, score);
            var o := Max(26, |modifier|) + 1;
            var p := o + Max(18, |option|);
            && |r| == p + Max(13, |score| + 7) + 1
            && r[..|modifier|] == modifier
            && (forall i :: |modifier| <= i < o - 1 ==> r[i] == EnSpace)
            && r[o - 1] == 'd'
            && r[o..o + |option|] == option
            && (forall i :: o + |option| <= i < p ==> r[i] == EnSpace)
            && r[p..p + |score| + 7] == score + " points"
            && (forall i :: p + |score| + 7 <= i < |r| - 1 ==> r[i] == EnSpace)
            && r[|r| - 1] == ' '
  {
  }

  /** While the option and the score fit their columns, the line as written is
      the intended one. */
  lemma DayDataStringFits(modifier: string, option: string, score: string)
    requires |option| < 18 && |score| < 6
    ensures DayDataString(modifier, option, score) == DayDataStringIntended(modifier, option, score)
  {
  }

  /** An option text of 18 characters or more is followed by "false" in the
      line as written, so the line differs from the intended one. */
  lemma LongOptionShowsFalse(modifier: string, option: string, score: string)
    requires |option| >= 18
    ensures var o := Max(26, |modifier|) + 1 + |option|;
            var r := DayDataString(modifier, option, score);
            |r| >= o + 5 && r[o..o + 5] == "false"
    ensures DayDataString(modifier, option, score) != DayDataStringIntended(modifier, option, score)
  {
  }

  /** A score of six characters or more (a net score of 10000 or more in
      absolute value) is followed by " points" and then "false" in the line
      as written. */
  lemma LongScoreShowsFalse(modifier: string, option: string, score: string)
    requires |score| >= 6
    ensures var r := DayDataString(modifier, option, score);
            |r| >= 6 && r[|r| - 6..] == "false "
  {
  }

  /** The component: a placeholder row for a day without data; otherwise the
      summary line, the day number and the day's token counts. */
  method Render(dayNumber: int, data: Option<DayLinkData>) returns (view: DayLinkView)
    ensures data.None? ==> view == Placeholder(DayNumberText(dayNumber))
    ensures data.Some? ==> view.Summary?
    ensures data.Some? ==> var d := data.value;
      && view.href == "day/" + IntString(dayNumber)
      && view.dayText == DayNumberText(dayNumber)
      && view.dayDataString == DayDataString(ChallengeModifierText(d), ModifierOptionText(d), SignedScore(d.netScore))
      && 0 <= view.tokensGained <= 2
      && (view.tokensGained == 0 <==> !Truthy(d.part1Completed) && !Truthy(d.part2Completed))
      && (view.tokensGained == 2 <==> Truthy(d.part1Completed) && Truthy(d.part2Completed))
      && view.tokensSpent == 2 * d.challengeModifierRerollsUsed + d.modifierOptionRerollsUsed
  {
    if data.None? {
      return Placeholder(DayNumberText(dayNumber));
    }
    var d := data.value;
    var challengeModifier := ChallengeModifierText(d);
    var modifierOption := ModifierOptionText(d);
    var score := IntString(d.netScore);
    ParseIntString(d.netScore);
    if ParseInt(score) >= 0 {
      score := "+" + score;
    }
    var tokensGained := 0;
    var tokensSpent := 0;
    if Truthy(d.part1Completed) {
      tokensGained := tokensGained + 1;
    }
    if Truthy(d.part2Completed) {
      tokensGained := tokensGained + 1;
    }
    tokensSpent := tokensSpent + d.challengeModifierRerollsUsed * 2;
    tokensSpent := tokensSpent + d.modifierOptionRerollsUsed;
    var dayDataString := DayDataString(challengeModifier, modifierOption, score);
    view := Summary("day/" + IntString(dayNumber), dayDataString, DayNumberText(dayNumber), tokensGained, tokensSpent);
  }
}
