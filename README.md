# Xtreme Xmas: day progression and leaderboard formatting, in Dafny

This project models three parts of the Xtreme Xmas advent-calendar game.

- **Day progression** (`day_progression.dfy`, module `DayProgression`). A `DayController` wraps one mutable
  `Day` record and offers five guarded operations:
  - roll the day's challenge modifier, plus one of its options when the modifier has options;
  - reroll the modifier, which needs 2 tokens;
  - reroll the option, which needs 1 token unless the reroll is gratis;
  - complete part 1;
  - complete part 2.

  `Day` is a class whose fields the methods update in place. Each method is specified by a transition
  relation (`RollInitialStep`, `RerollModifierStep`, `RerollOptionStep`, `CompletePart1Step`,
  `CompletePart2Step`) between the day's state before and after the call and the call's outcome. The lemmas
  beside them state what the game promises: the day check, the check-then-write order, the counters, the
  completion order, and an invariant over any sequence of calls.
- **Day summary line** (`day_link.dfy`, module `DayLink`). The game page shows one line per day. It holds
  the modifier's name padded to 26 columns, a literal `d`, the option's text, the signed score and
  `" points"`, then the day number. The page also counts the tokens the day gained and spent.
- **Leaderboard rows** (`leaderboard.dfy`, module `Leaderboard`). Each row holds these fields:
  - the rank, right-aligned in 4 columns, with one of 12 colours that cycle down the board;
  - the game's name between `°` marks, in exactly 21 columns;
  - the score, padded to at least 5 columns;
  - the player's name, padded to at least 20 columns;
  - the title's first word in a 14-column field, with a colour taken from a fixed list.

`text.dfy` (module `Text`) models the JavaScript string operations these use. It covers `String(n)` for
integers and the unary `+` that reads such a string back, the en-space `repeat(n)`, the `s.length < w && (s += ...)`
padding idiom, and `s.split(" ")[0]`. `wrappers.dfy` holds `Option`, which stands for `null` and
`undefined`.

The front end pads its columns with EN SPACE (U+2002) and puts a FIGURE SPACE (U+2007) before a one-digit
day, because HTML does not collapse those characters. The model says which of these characters each
filler and lead is. The ASCII space appears only where the code writes one: in `split(" ")`, in `" points"`,
and at the end of the day summary line.

Ids are natural numbers, and 0 means "not set". The controller tests ids for JavaScript truthiness, so a
null id and an id of 0 behave the same.

The random pick helpers `rollChallengeModifier` and `rollModifierOption` are not modelled.
`DayProgression.Pick` stands in for both: it returns some element of a non-empty
list, and the model says nothing more about which element. For an empty list it reports `EmptyCatalog` at
the point where the code asks for the pick. In JavaScript that step throws either way: the helper throws,
or it returns `undefined` and reading `.id` from it throws. `verifyDayIsCurrent` is modelled as the check
`day.number == currentDay`.

Each relation follows the code's order of checks and writes. Where the code writes a field and only then
fails, the model has the written field in the failed state. There are four such cases:

- a modifier reroll counts itself before it draws the new modifier;
- the initial roll writes the modifier id before it draws an option;
- an option reroll counts itself before it draws the new option;
- the gratis option reroll inside a modifier reroll can fail its own checks after that reroll has counted
  itself and written the new modifier id.

## Model

| member | source | states |
|---|---|---|
| `DayProgression.DayController.RollInitialChallengeModifier` | backend_web/components/DayController.ts:31-54 | The day check fails first and writes nothing. A day that already has a modifier fails as already rolled and writes nothing. Otherwise the modifier id becomes that of some catalog entry. If that entry has options, the option id becomes that of an option filtered to the entry's id. If there is no such option, the call fails with the modifier id already written. |
| `DayProgression.DayController.RerollChallengeModifier` | backend_web/components/DayController.ts:56-85 | The day check, a missing modifier and fewer than 2 tokens each fail before any write. Then the modifier reroll counter goes up by 1 and the modifier id becomes some catalog id. A new modifier with options is followed by the gratis option reroll over its own options. That nested call can fail after these writes. |
| `DayProgression.DayController.RerollModifierOption` | backend_web/components/DayController.ts:87-111 | These checks run in order, and each failure writes nothing: the day check, then a missing modifier, then a missing option, then a missing game or fewer than 1 token when not gratis. Then the option reroll counter goes up by 1 and the option id becomes that of an element of the given list. |
| `DayProgression.DayController.CompletePart1` | backend_web/components/DayController.ts:113-122 | After the day check, sets part 1 once. A second call fails and writes nothing. |
| `DayProgression.DayController.CompletePart2` | backend_web/components/DayController.ts:124-136 | After the day check, fails unless part 1 is complete. Sets part 2 once, and a second call fails. |
| `DayProgression.OptionsFor` | backend_web/components/DayController.ts:44-46 | An option is kept exactly when it is in the catalog and belongs to the given modifier. |
| `DayProgression.Pick` | backend_web/components/DayController.ts:41 | Stands in for the random pick: fails exactly on an empty list, and otherwise returns one of the list's elements. |
| `DayProgression.StaleDayIsRejected` | backend_web/components/DayController.ts:37 | Any of the five calls on a day other than the current one fails the day check and changes nothing. The other day checks are at lines 62, 94, 115 and 126. |
| `DayProgression.RejectedCallWritesNothing` | backend_web/components/DayController.ts:38-40 | A call that fails its own checks writes nothing: already rolled, not enough tokens, no game, already completed, or part 1 not done. So does a direct option reroll that fails for a missing modifier or option, and a modifier reroll on a day without a modifier. The other guards are at lines 63-68, 95-103, 116-118 and 127-132. |
| `DayProgression.StepEvolves` | backend_web/components/DayController.ts:31-136 | Every call keeps the day number. A counter never goes down, and a completion flag is never cleared. If part 2 implies part 1 before a call, it still does after. |
| `DayProgression.RunEvolves` | backend_web/components/DayController.ts:15-29 | Over any sequence of calls, whatever each one picked and however each one ended, part 2 never gets ahead of part 1. The day number stays the same, counters only grow, and flags only get set. |
| `DayProgression.InitialRollResult` | backend_web/components/DayController.ts:41-52 | After a successful initial roll, the day had no modifier before. It now has a catalog modifier. If that modifier has options, the day has one of the modifier's options; if not, the option id is unchanged. No other field changes. |
| `DayProgression.SecondRollFails` | backend_web/components/DayController.ts:38-42 | Take a first roll that got past its checks, over a catalog of positive ids. A second roll then fails as already rolled and changes nothing, even when the first roll failed while drawing its option. |
| `DayProgression.ModifierRerollResult` | backend_web/components/DayController.ts:63-82 | A successful modifier reroll needed a modifier and at least 2 tokens, and it counts itself exactly once. The new modifier is from the catalog. If it has options, the option counter goes up by 1 and the option is one of the new modifier's options. If not, the option id and its counter are unchanged. |
| `DayProgression.StaleOptionSurvivesReroll` | backend_web/components/DayController.ts:74-82 | Rerolling onto modifiers without options never touches the option id or its counter, so a stale option stays in place. |
| `DayProgression.OptionRerollResult` | backend_web/components/DayController.ts:95-108 | A successful option reroll needed: a modifier, an option, and either the gratis flag or a game with at least 1 token. It counts itself once and sets the option id to that of a listed option. No other field changes. |
| `DayProgression.GratisRerollIgnoresTokens` | backend_web/components/DayController.ts:101 | A gratis option reroll on a day with a modifier and an option succeeds whatever the token balance, and even with no game. |
| `DayProgression.Part2NeedsPart1` | backend_web/components/DayController.ts:127-133 | Part 2 is completed only on a day whose part 1 is complete and whose part 2 is not. |
| `DayProgression.Part1TwiceFails` | backend_web/components/DayController.ts:116-119 | After part 1 has been completed, completing it again fails and changes nothing. |
| `DayProgression.Part2TwiceFails` | backend_web/components/DayController.ts:130-133 | After part 2 has been completed, completing it again fails and changes nothing. |
| `DayProgression.RerollOntoOptionsFromNoOptionFails` | backend_web/components/DayController.ts:74-82 | Start from a day that has a modifier but no option id, and reroll onto modifiers that have options. The call always fails with "No modifier option to reroll". By then the modifier reroll counter has gone up by 1 and the id of a catalog modifier has been written. The option id stays 0 and its counter is unchanged. |
| `DayProgression.IntendedRerollAssignsOption` | backend_web/components/DayController.ts:74-82 | With the corrected gratis reroll, the modifier reroll always succeeds under four conditions: the day is current, it has a modifier, the game has 2 tokens, and every catalog modifier with options has one. A new modifier with options then always comes with one of its own options. |
| `DayProgression.CompletionScenario` | backend_web/components/DayController.ts:113-136 | On a fresh current day: completing part 1 succeeds, then part 2 succeeds, then part 2 again fails as already completed. |
| `DayProgression.RollTwiceScenario` | backend_web/components/DayController.ts:31-54 | Rolling twice on a fresh current day: the second roll fails as already rolled and leaves the day as the first roll left it. |
| `DayLink.Render` | frontend_web/src/components/game/dayLink/dayLink.tsx:27-75 | A day without data shows only its number. A day with data shows four things: the summary line built from the modifier's name, the option's text and the signed score; a link to `day/<n>`; the tokens gained, which is 0 exactly when neither part is truthy and 2 exactly when both are; and `2 * challengeModifierRerollsUsed + modifierOptionRerollsUsed` tokens spent. |
| `DayLink.SignedScore` | frontend_web/src/components/game/dayLink/dayLink.tsx:45-48 | The score is a numeral that reads back as the net score. It starts with `+` exactly when the score is not negative and with `-` exactly when it is negative. It is one character longer than the score's digits. |
| `DayLink.DayNumberText` | frontend_web/src/components/game/dayLink/dayLink.tsx:33 | The text ends with the day's decimal number. Below 10 it is that number after exactly one figure space (U+2007); from 10 on it is the number alone. Days 0 to 99 take exactly two characters. The same expression is used again at line 68. |
| `DayLink.ChallengeModifierText` | frontend_web/src/components/game/dayLink/dayLink.tsx:39-41 | The modifier column's text is empty exactly when the day has no modifier or the modifier's name is empty. Otherwise it is the modifier's name. |
| `DayLink.ModifierOptionText` | frontend_web/src/components/game/dayLink/dayLink.tsx:42-44 | The option column's text is empty exactly when the day has no option or the option's text is empty. Otherwise it is the option's text. |
| `DayLink.DayDataString` | frontend_web/src/components/game/dayLink/dayLink.tsx:56-62 | The line as written starts with the modifier's name, then en spaces up to column `max(26, len)`, where the `d` sits. The exact length shows the `false` fillers. The option takes 18 columns when it is shorter than 18 and `len + 5` otherwise. The score and ` points` take 13 columns when the score is shorter than 6 and `len + 12` otherwise. `DayDataStringFits`, `LongOptionShowsFalse` and `LongScoreShowsFalse` relate it to the intended line. |
| `DayLink.WrittenColumns` | frontend_web/src/components/game/dayLink/dayLink.tsx:60-62 | In the line as written, the option's text follows the `d` at every length, and the option's filler comes right after it. Next come the score and ` points`, then the score's filler. A final ASCII space ends the line. |
| `DayLink.OptionFill` | frontend_web/src/components/game/dayLink/dayLink.tsx:61 | After an option shorter than 18 characters come en spaces up to 18 columns. After a longer option comes the text `false`. |
| `DayLink.ScoreFill` | frontend_web/src/components/game/dayLink/dayLink.tsx:62 | After a score shorter than 6 characters come en spaces up to 6 columns. After a longer score comes the text `false`. |
| `DayLink.DayDataStringIntended` | frontend_web/src/components/game/dayLink/dayLink.tsx:56-62 | The corrected line is `max(26, m) + 1 + max(18, o) + max(13, score + 7) + 1` long. `IntendedColumns` states the content of each column. |
| `DayLink.DayDataStringFits` | frontend_web/src/components/game/dayLink/dayLink.tsx:56-62 | While the option's text is under 18 characters and the score under 6, the line as written equals the intended fixed-column line. |
| `DayLink.LongOptionShowsFalse` | frontend_web/src/components/game/dayLink/dayLink.tsx:60-61 | An option text of 18 or more characters is followed by the text `false` in the line as written, so the line differs from the intended one. |
| `DayLink.LongScoreShowsFalse` | frontend_web/src/components/game/dayLink/dayLink.tsx:62 | A score of 6 or more characters gives a line that ends in `false `. |
| `DayLink.IntendedColumns` | frontend_web/src/components/game/dayLink/dayLink.tsx:56-62 | In the corrected line, the modifier's name fills a column at least 26 wide, followed by `d`. The option's text fills a column at least 18 wide. The score and ` points` fill a column at least 13 wide. A final ASCII space ends the line. Every filler is an en space (U+2002). |
| `Leaderboard.RankString` | frontend_web/src/routes/leaderboard/index.tsx:112 | The rank is `index + 1` in decimal, followed by an en space and right-aligned with en spaces. It is `max(4, digits + 1)` long and ends in an en space. The padding is at lines 156-159. |
| `Leaderboard.RankWidth` | frontend_web/src/routes/leaderboard/index.tsx:156-159 | The first 999 ranks are exactly 4 characters wide. |
| `Leaderboard.ColorShift` | frontend_web/src/routes/leaderboard/index.tsx:113 | The rank's colour shift is between 1 and 12. |
| `Leaderboard.RankColor` | frontend_web/src/routes/leaderboard/index.tsx:113 | The class is `xmasLight colorShift` followed by one or two digits that read back as `index % 12 + 1`. |
| `Leaderboard.RankColorCycle` | frontend_web/src/routes/leaderboard/index.tsx:113 | Two ranks share a colour class exactly when their indexes are equal modulo 12. |
| `Leaderboard.BoardColorsCycle` | frontend_web/src/routes/leaderboard/index.tsx:109-113 | Down the board, two rows share a rank colour exactly when they are a multiple of 12 rows apart. |
| `Leaderboard.GameNameString` | frontend_web/src/routes/leaderboard/index.tsx:160-165 | The game-name field is always exactly 21 characters. A name of 19 or fewer characters appears between `°` marks with en spaces after. A longer name becomes `°`, its first 15 characters, `...°` and an en space. The `°` marks are added at line 115. |
| `Leaderboard.ScoreString` | frontend_web/src/routes/leaderboard/index.tsx:116 | The score field is `max(5, len)` long. It starts with the score's decimal numeral, which reads back as the score, and en spaces fill the rest. The padding is at lines 166-167. |
| `Leaderboard.UsernameString` | frontend_web/src/routes/leaderboard/index.tsx:168-171 | The player field is `max(20, len)` long. It starts with the username, and en spaces fill the rest. |
| `Leaderboard.TitleWord` | frontend_web/src/routes/leaderboard/index.tsx:118-124 | With no title the word is `Incomplete`. With a title it is the title name's longest space-free prefix, and the next character of the name, if there is one, is a space. |
| `Leaderboard.TitleColor` | frontend_web/src/routes/leaderboard/index.tsx:125-155 | The colour stays `textBright` exactly when the word is not one of the nine listed words. `TitleColorCases` adds that no two listed words share a colour. |
| `Leaderboard.CenteredTitle` | frontend_web/src/routes/leaderboard/index.tsx:172-177 | The title field is `max(14, len)` long. The word sits after `min(2, max(0, 14 - len))` en spaces, with en spaces after it. The leads are at lines 172-175. |
| `Leaderboard.TitleColorCases` | frontend_web/src/routes/leaderboard/index.tsx:125-155 | A title word gets a colour other than `textBright` exactly when it is one of the nine listed words, and no two listed words share a colour. |
| `Leaderboard.TitleColorOfName` | frontend_web/src/routes/leaderboard/index.tsx:118-125 | The colour of a title name is decided by its first space-separated word alone. |
| `Leaderboard.FormatRow` | frontend_web/src/routes/leaderboard/index.tsx:111-177 | A row has these widths: the rank `max(4, digits + 1)`, the game name 21, the score `max(5, len)` starting with the score's decimal, and the player `max(20, len)` starting with the name. The title is `max(14, len)` of its first word, or of `Incomplete` when there is no title. The rank colour comes from the index and the title colour from the word. |
| `Leaderboard.Listing` | frontend_web/src/routes/leaderboard/index.tsx:101-110 | No games gives the "no games" notice. Otherwise there is one row per game, in order, each formatted with its own index. |
| `Text.PadEnd` | frontend_web/src/routes/leaderboard/index.tsx:166-171 | The result is `max(width, len)` long, starts with the input, and is filled with en spaces. |
| `Text.PadStart` | frontend_web/src/routes/leaderboard/index.tsx:157-159 | The result is `max(width, len)` long, ends with the input, and is led by en spaces. |
| `Text.EnSpaces` | frontend_web/src/routes/leaderboard/index.tsx:159 | The repeat of the en space (U+2002), used for every padded column, is exactly n characters long, and every character is an en space. |
| `Text.ParseInt` | frontend_web/src/components/game/dayLink/dayLink.tsx:46 | Unary `+` on a numeral gives a negative number only after a `-` sign, a non-negative number for any other first character, and never a positive number after `-`. `ParseIntString` shows it reads back `String(n)`. |
| `Text.NatDigits` | frontend_web/src/routes/leaderboard/index.tsx:112 | `String(n)` for a natural number is a non-empty run of digits, with no leading zero unless n is 0. |
| `Text.IntString` | frontend_web/src/routes/leaderboard/index.tsx:116 | `String(n)` for an integer is a numeral, and it starts with `-` exactly when n is negative. |
| `Text.ParseIntString` | frontend_web/src/components/game/dayLink/dayLink.tsx:45-46 | Reading `String(n)` back with unary `+` gives n. The same holds after a `+` is put in front of a non-negative numeral. |
| `Text.NatDigitsValue` | frontend_web/src/components/game/dayLink/dayLink.tsx:45-46 | The digits of n read back as n. |
| `Text.NatDigitsLength` | frontend_web/src/routes/leaderboard/index.tsx:156-159 | n has at most k digits exactly when n is below 10^k. |
| `Text.FirstWord` | frontend_web/src/routes/leaderboard/index.tsx:121 | `s.split(" ")[0]` is the longest prefix of s without an ASCII space. The input character right after it, if there is one, is an ASCII space. |
| `Text.FirstWordOfPhrase` | frontend_web/src/routes/leaderboard/index.tsx:121 | The first word of `w + " " + rest`, for a space-free w, is w. |
| `Text.FirstWordOfWord` | frontend_web/src/routes/leaderboard/index.tsx:121 | A string without a space is its own first word. |

## Findings

| source | as written | input that shows it | evidently intended | confidence | as-written member | corrected member |
|---|---|---|---|---|---|---|
| backend_web/components/DayController.ts:74-82 | After a modifier reroll lands on a modifier with options, the gratis option reroll still requires an existing option id (line 98). | A day whose current modifier has no options, so its option id is 0, rerolled with at least 2 tokens onto a modifier that has options. The call throws "No modifier option to reroll" after incrementing `challengeModifierRerollsUsed` and writing the new modifier id. | The gratis reroll draws one of the new modifier's options whether or not the day had one before. | not executed; high | `DayProgression.RerollOntoOptionsFromNoOptionFails` | `DayProgression.IntendedRerollAssignsOption` |
| frontend_web/src/components/game/dayLink/dayLink.tsx:60-62 | `cond && " ".repeat(n)` inside a template literal inserts the text `false` when `cond` fails. | An option text of 18 or more characters (or a score of 6 or more characters) puts `false` after the option (or at the end of the line). | An empty filler, as the ternary for the modifier's name already does (lines 57-59). | not executed; high | `DayLink.LongOptionShowsFalse` | `DayLink.IntendedColumns` |

The class methods model the code as written. The corrected behaviour of the first finding is the relation
`RerollModifierIntendedStep`. The corrected line of the second finding is `DayDataStringIntended`.

## Left out

- Randomness: the picks are modelled only as "some element of a non-empty list". Uniformity is not
  modelled: `Pick` assumes nothing about which element is drawn.
- `rollChallengeModifier`, `rollModifierOption` and `verifyDayIsCurrent` are not modelled
  (DayController.ts:7-9 imports them) beyond the stand-ins described above.
- `async`/`await`: nothing suspends in a way that changes the result, so every operation is synchronous.
- Returned Day: each operation returns `state.day`, the same object that was updated. The methods return
  only the outcome, and the controller holds the Day as a constant. The assignment at DayController.ts:75
  stores the same object back, so the model leaves it out.
- Token debiting, persistence, and concurrent requests on one Day are handled outside the controller and
  are not modelled. The controller only reads the token balance.
- The Game record is a value. Because the controller cannot write it, "no operation writes the game" holds
  by construction and has no lemma of its own.
- JSX rendering, styles, Qwik resources and stores, fetching, cookie parsing, and `renderTokens` /
  `renderSpentTokens` are left out. So are the year, the links and the "Loading..." view of the
  leaderboard's pending state.
- Numbers are integers. `String(n)` is modelled for integers only, not for fractions or for the exponent
  form JavaScript uses at 10^21 and beyond.
- A string's length counts UTF-16 code units, one `char` each. Characters outside the Basic Multilingual
  Plane are not modelled.
- `DayProgression.Pick`: does not model what the real helpers do on an empty list beyond a failure at that
  point. The helpers are not modelled, and `Pick` assumes only that a non-empty list yields one of its
  elements.
- `Leaderboard.FormatRow`: states widths and prefixes, not the full content of each field. The field
  functions `RankString`, `GameNameString` and `CenteredTitle` state the contents.
