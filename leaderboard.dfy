/** The leaderboard page's rows: each game's rank, name, score, player and
    title, padded into fixed-width columns, with a colour for the rank and one
    for the title. */
module Leaderboard {
  import opened Wrappers
  import opened Text

  /** `LeaderboardGame`: a finished game as the leaderboard receives it. */
  datatype LeaderboardGame = LeaderboardGame(
    id: int,
    year: int,
    name: string,
    score: int,
    username: string,
    title: Option<string>,
    repositoryLink: string)

  /** The strings and colour classes one row shows. */
  datatype Row = Row(
    rankString: string,
    rankColor: string,
    gameNameString: string,
    scoreString: string,
    usernameString: string,
    titleString: string,
    titleColor: string)

  /** The list: a notice when there are no games, otherwise one row each. */
  datatype Board = NoGames | Rows(rows: seq<Row>)

  // ---------------------------------------------------------------------
  // Rank

  /** `(index % 12) + 1`: which of the twelve colour shifts a rank uses. */
  function ColorShift(index: nat): (k: nat)
    ensures 1 <= k <= 12
  {
    index % 12 + 1
  }

  /** `xmasLight colorShift` followed by the shift's one or two digits. */
  function RankColor(index: nat): (r: string)
    ensures 21 <= |r| <= 22 && r[..20] == "xmasLight colorShift"
    ensures IsDigits(r[20..]) && DigitsValue(r[20..]) == index % 12 + 1
  {
    NatDigitsValue(ColorShift(index));
    NatDigitsLength(ColorShift(index), 2);
    "xmasLight colorShift" + NatDigits(ColorShift(index))
  }

  /** Two ranks share a colour exactly when their indexes are twelve apart,
      or a multiple of twelve. */
  lemma RankColorCycle(i: nat, j: nat)
    ensures RankColor(i) == RankColor(j) <==> i % 12 == j % 12
  {
    var p := "xmasLight colorShift";
    if RankColor(i) == RankColor(j) {
      assert RankColor(i)[|p|..] == NatDigits(ColorShift(i));
      assert RankColor(j)[|p|..] == NatDigits(ColorShift(j));
      NatDigitsValue(ColorShift(i));
      NatDigitsValue(ColorShift(j));
    }
  }

  /** `String(index + 1) + "\u2002"`, widened on the left with en spaces to 4
      characters. */
  function RankString(index: nat): (r: string)
    ensures var d := NatDigits(index + 1);
            && |r| == Max(4, |d| + 1)
            && r[|r| - 1] == EnSpace
            && r[|r| - 1 - |d|..|r| - 1] == d
            && (forall i :: 0 <= i < |r| - 1 - |d| ==> r[i] == EnSpace)
  {
    var d := NatDigits(index + 1);
    var r := PadStart(d + [EnSpace], 4);
    assert r[|r| - |d| - 1..] == d + [EnSpace];
    assert r[|r| - 1 - |d|..|r| - 1] == (d + [EnSpace])[..|d|];
    r
  }

  /** The first 999 ranks are exactly four characters wide. */
  lemma RankWidth(index: nat)
    requires index < 999
    ensures |RankString(index)| == 4
  {
    NatDigitsLength(index + 1, 3);
  }

  // ---------------------------------------------------------------------
  // Game name, score and player

  /** `"°" + name + "°"` widened on the right to 21 characters, or, when
      longer than that, its first 16 characters and `"...°"` and an en space. */
  function GameNameString(name: string): (r: string)
    ensures |r| == 21
    ensures |name| <= 19 ==> r[..|name| + 2] == "°" + name + "°"
    ensures |name| <= 19 ==> forall i :: |name| + 2 <= i < 21 ==> r[i] == EnSpace
    ensures |name| > 19 ==> r == "°" + name[..15] + "...°" + [EnSpace]
  {
    var g := "°" + name + "°";
    if |g| <= 21 then g + EnSpaces(21 - |g|)
    else
      assert g[..16] == "°" + name[..15];
      g[..16] + "...°" + [EnSpace]
  }

  /** `String(score)` widened on the right to 5 characters. */
  function ScoreString(score: int): (r: string)
    ensures |r| == Max(5, |IntString(score)|)
    ensures var n := IntString(score);
            r[..|n|] == n && ParseInt(n) == score && forall i :: |n| <= i < |r| ==> r[i] == EnSpace
  {
    ParseIntString(score);
    PadEnd(IntString(score), 5)
  }

  /** The player's name widened on the right to 20 characters. */
  function UsernameString(username: string): (r: string)
    ensures |r| == Max(20, |username|) && r[..|username|] == username
    ensures forall i :: |username| <= i < |r| ==> r[i] == EnSpace
  {
    PadEnd(username, 20)
  }

  // ---------------------------------------------------------------------
  // Title

  /** `game.Title ? game.Title.name.split(" ")[0] : "Incomplete"`. */
  function TitleWord(title: Option<string>): (r: string)
    ensures title.None? ==> r == "Incomplete"
    ensures title.Some? ==> |r| <= |title.value| && r == title.value[..|r|]
    ensures title.Some? ==> forall i :: 0 <= i < |r| ==> r[i] != ' '
    ensures title.Some? && |r| < |title.value| ==> title.value[|r|] == ' '
  {
    if title.Some? then FirstWord(title.value) else "Incomplete"
  }

  /** The title word with two en spaces in front when shorter than 13, one when
      13 long, then widened on the right to 14 characters. */
  function CenteredTitle(w: string): (r: string)
    ensures |r| == Max(14, |w|)
    ensures var lead := Min(2, Max(0, 14 - |w|));
            && r[lead..lead + |w|] == w
            && (forall i :: 0 <= i < lead ==> r[i] == EnSpace)
            && (forall i :: lead + |w| <= i < |r| ==> r[i] == EnSpace)
  {
    var t := if |w| < 13 then [EnSpace, EnSpace] + w else if |w| < 14 then [EnSpace] + w else w;
    var r := PadEnd(t, 14);
    var lead := |t| - |w|;
    assert t[lead..] == w;
    assert r[lead..lead + |w|] == t[lead..];
    r
  }

  /** The colour class of the title word; the words the switch does not list
      keep `textBright`. */
  function TitleColor(w: string): (r: string)
    ensures r == "textBright" <==> w !in ColoredTitles
  {
    match w
    case "Champion" => "fsGreen"
    case "Gnarly" => "fsTurquoise"
    case "Radical" => "fsCyan"
    case "Righteous" => "fsCerulean"
    case "Epic" => "fsBlue"
    case "Flawless" => "fsPurple"
    case "Legendary" => "fsRose"
    case "Santaic" => "fsRed"
    case "Godlike" => "fsYellow"
    case _ => "textBright"
  }

  /** The title words the colour switch lists. */
  const ColoredTitles: set<string> :=
    {"Champion", "Gnarly", "Radical", "Righteous", "Epic", "Flawless", "Legendary", "Santaic", "Godlike"}

  /** A title word gets its own colour exactly when the switch lists it, and
      no two listed words share one. */
  lemma TitleColorCases(w: string, v: string)
    ensures TitleColor(w) != "textBright" <==> w in ColoredTitles
    ensures w in ColoredTitles && v in ColoredTitles && TitleColor(w) == TitleColor(v) ==> w == v
  {
  }

  /** The title of a title name whose first word is followed by a space is
      coloured by that word alone: "Gnarly Champion" is turquoise, "Tubular
      Champion" keeps the default. */
  lemma {:induction false} TitleColorOfName(word: string, rest: string)
    requires forall i :: 0 <= i < |word| ==> word[i] != ' '
    ensures TitleColor(TitleWord(Some(word + " " + rest))) == TitleColor(word)
  {
    FirstWordOfPhrase(word, rest);
  }

  // ---------------------------------------------------------------------
  // Rows

  /** One row, for the game at position `index` of the list. */
  function FormatRow(game: LeaderboardGame, index: nat): (row: Row)
    ensures |row.rankString| == Max(4, |NatDigits(index + 1)| + 1)
    ensures row.rankColor == RankColor(index)
    ensures |row.gameNameString| == 21
    ensures |row.scoreString| == Max(5, |IntString(game.score)|)
    ensures row.scoreString[..|IntString(game.score)|] == IntString(game.score)
    ensures |row.usernameString| == Max(20, |game.username|)
    ensures row.usernameString[..|game.username|] == game.username
    ensures |row.titleString| == Max(14, |TitleWord(game.title)|)
    ensures row.titleColor == TitleColor(TitleWord(game.title))
  {
    var word := TitleWord(game.title);
    Row(RankString(index), RankColor(index), GameNameString(game.name), ScoreString(game.score),
        UsernameString(game.username), CenteredTitle(word), TitleColor(word))
  }

  /** `leaderboardGamesData.map((game, index) => ...)`, or the notice when
      there are no games. */
  function Listing(games: seq<LeaderboardGame>): (b: Board)
    ensures b.NoGames? <==> |games| < 1
    ensures b.Rows? ==> |b.rows| == |games|
    ensures b.Rows? ==> forall i :: 0 <= i < |games| ==> b.rows[i] == FormatRow(games[i], i)
  {
    if |games| < 1 then NoGames
    else Rows(seq(|games|, i requires 0 <= i < |games| => FormatRow(games[i], i)))
  }

  /** Down the board, the rank colours repeat every twelve rows and differ
      between any two rows that are less than twelve apart. */
  lemma BoardColorsCycle(games: seq<LeaderboardGame>, i: nat, j: nat)
    requires i < j < |games|
    ensures var rows := Listing(games).rows;
            rows[i].rankColor == rows[j].rankColor <==> (j - i) % 12 == 0
  {
    var rows := Listing(games).rows;
    assert rows[i].rankColor == RankColor(i);
    assert rows[j].rankColor == RankColor(j);
    RankColorCycle(i, j);
    SameRemainder(i, j);
  }

  lemma SameRemainder(i: nat, j: nat)
    requires i <= j
    ensures (j - i) % 12 == 0 <==> i % 12 == j % 12
  {
  }
}
