/** A pétanque tournament: validation of the player count, the team draw, and
    the values written into the workbook that records the draw. */
module Petanque {
  import opened Text
  import opened Sheets

  /** A team is the list of its players' ids. */
  type Team = seq<int>

  /** A round (one entry of the match list) is the list of its teams. */
  type Round = seq<Team>

  datatype Result<T, E> = Success(value: T) | Failure(error: E)

  /** The error the constructor raises, with its message. */
  datatype ConfigError = ValueError(message: string)

  function Min(a: int, b: int): int {
    if a <= b then a else b
  }

  function Max(a: int, b: int): int {
    if a <= b then b else a
  }

  /** Players per team: two for a "doublette", three for any other team type. */
  function TeamSize(teamType: string): (r: nat)
    ensures r == 2 <==> teamType == "doublette"
    ensures r == 2 || r == 3
  {
    if teamType == "doublette" then 2 else 3
  }

  /** The message of the error raised when the player count does not split
      into full teams; `multiple` is twice the team size. */
  function MultipleMessage(multiple: nat): string {
    MultiplePrefix + DecimalString(multiple)
  }

  const MultiplePrefix: string := "Le nombre de joueurs doit être un multiple de "

  /** The message ends in the digits of the required multiple, which read back
      as that number. */
  lemma MultipleMessageReadsBack(multiple: nat)
    ensures |MultipleMessage(multiple)| > |MultiplePrefix|
    ensures MultipleMessage(multiple)[..|MultiplePrefix|] == MultiplePrefix
    ensures AllDigits(MultipleMessage(multiple)[|MultiplePrefix|..])
    ensures ParseDecimal(MultipleMessage(multiple)[|MultiplePrefix|..]) == multiple
  {
    assert MultipleMessage(multiple)[|MultiplePrefix|..] == DecimalString(multiple);
    DecimalRoundTrip(multiple);
  }

  /** The player ids 1..n, in order (empty when n is not positive). */
  function PlayerIds(n: int): (r: seq<int>)
    ensures |r| == if n > 0 then n else 0
    ensures forall i :: 0 <= i < |r| ==> r[i] == i + 1
  {
    if n <= 0 then [] else PlayerIds(n - 1) + [n]
  }

  lemma PlayerIdsMembers(n: int, x: int)
    ensures x in PlayerIds(n) <==> 1 <= x <= n
  {
    if 1 <= x <= n {
      assert PlayerIds(n)[x - 1] == x;
    }
  }

  predicate Distinct(s: seq<int>) {
    forall i, j :: 0 <= i < j < |s| ==> s[i] != s[j]
  }

  /** How many times a loop over `range(numMatches)` runs. */
  function RoundCount(numMatches: int): nat {
    if numMatches > 0 then numMatches else 0
  }

  // ---------------------------------------------------------------------------
  // The draw
  // ---------------------------------------------------------------------------

  /** `s` with the elements at i and j exchanged (`x[i], x[j] = x[j], x[i]`). */
  function Swap(s: seq<int>, i: nat, j: nat): (r: seq<int>)
    requires i < |s| && j < |s|
    ensures |r| == |s| && r[i] == s[j] && r[j] == s[i]
    ensures forall k :: 0 <= k < |s| && k != i && k != j ==> r[k] == s[k]
    ensures multiset(r) == multiset(s)
    ensures Distinct(s) ==> Distinct(r)
  {
    s[i := s[j]][j := s[i]]
  }

  /** Shuffles `s` the way `random.shuffle` does: for i from the last index down
      to 1, swap element i with element randBelow(i + 1). The random source is a
      parameter giving, for each bound m > 0, a draw below m; whatever it gives,
      the result is a permutation of `s`. */
  method Shuffle(s: seq<int>, randBelow: nat -> nat) returns (r: seq<int>)
    requires forall m: nat :: 0 < m ==> randBelow(m) < m
    ensures |r| == |s| && multiset(r) == multiset(s)
    ensures Distinct(s) ==> Distinct(r)
  {
    r := s;
    var i := |r| - 1;
    while i > 0
      invariant -1 <= i < |r| && |r| == |s|
      invariant multiset(r) == multiset(s)
      invariant Distinct(s) ==> Distinct(r)
    {
      var j := randBelow(i + 1);
      r := Swap(r, i, j);
      i := i - 1;
    }
  }

  /** The round drawn from a player order: with h half the players and k the
      smaller of the team size and h, the first k players of each half. */
  function MatchTeams(players: seq<int>, teamSize: nat): Round {
    var h := |players| / 2;
    var k := Min(teamSize, h);
    [players[..k], players[h..h + k]]
  }

  /** Builds one round as the inner loop of the draw does: for each of the two
      teams, slice its half of the player list and keep its first `teamSize`. */
  method DrawTeams(players: seq<int>, teamSize: nat) returns (teams: Round)
    ensures teams == MatchTeams(players, teamSize)
  {
    teams := [];
    var teamNum := 0;
    while teamNum < 2
      invariant 0 <= teamNum <= 2
      invariant teams == MatchTeams(players, teamSize)[..teamNum]
    {
      var teamStart := teamNum * (|players| / 2);
      var teamEnd := teamStart + |players| / 2;
      var teamPlayers := players[teamStart..teamEnd];
      var team := teamPlayers[..Min(teamSize, |teamPlayers|)];
      assert team == MatchTeams(players, teamSize)[teamNum] by {
        assert teamStart == if teamNum == 0 then 0 else |players| / 2;
      }
      teams := teams + [team];
      teamNum := teamNum + 1;
    }
  }

  /** A team of a tournament of n players: t distinct ids in 1..n (none when
      there are no players). */
  predicate IsTeam(team: Team, n: int, t: nat) {
    |team| == (if n > 0 then t else 0)
    && Distinct(team)
    && forall x :: x in team ==> 1 <= x <= n
  }

  /** A well-formed round: two teams, and no player in both. */
  predicate IsDraw(m: Round, n: int, t: nat) {
    |m| == 2
    && IsTeam(m[0], n, t) && IsTeam(m[1], n, t)
    && forall x :: x in m[0] ==> x !in m[1]
  }

  /** When n > 0 players split into pairs of full teams of t, each half of
      the players holds at least a full team. */
  lemma HalfHoldsTeam(n: int, t: nat)
    requires t > 0 && n > 0 && n % (2 * t) == 0
    ensures n / 2 >= t
  {
    var q := n / (2 * t);
    assert n == (2 * t) * q;
    assert n == 2 * (t * q);
    assert t * q >= t;
  }

  /** Drawing from any ordering of the players 1..n, when n splits into pairs of
      full teams, gives two disjoint full teams of real players. */
  lemma MatchTeamsIsDraw(players: seq<int>, n: int, t: nat)
    requires t > 0 && n % (2 * t) == 0
    requires multiset(players) == multiset(PlayerIds(n)) && Distinct(players)
    ensures IsDraw(MatchTeams(players, t), n, t)
  {
    assert |players| == |PlayerIds(n)| by {
      assert |multiset(players)| == |multiset(PlayerIds(n))|;
    }
    var h := |players| / 2;
    var k := Min(t, h);
    if n > 0 {
      HalfHoldsTeam(n, t);
    }
    assert k == if n > 0 then t else 0;
    forall x | x in players
      ensures 1 <= x <= n
    {
      assert x in multiset(PlayerIds(n));
      PlayerIdsMembers(n, x);
    }
    var m := MatchTeams(players, t);
    assert m[0] == players[..k] && m[1] == players[h..h + k];
    forall x | x in m[0] || x in m[1]
      ensures x in players
    {
      if x in m[0] {
        var i :| 0 <= i < k && m[0][i] == x;
        assert players[i] == x;
      } else {
        var j :| 0 <= j < k && m[1][j] == x;
        assert players[h + j] == x;
      }
    }
  }

  // ---------------------------------------------------------------------------
  // The workbook layout
  // ---------------------------------------------------------------------------

  /** The headers written across row 1 of every round sheet. */
  const RoundHeaders: seq<string> :=
    ["Terrain", "Résultat Equipe 1", "Points Equipe 1", "Résultat Equipe 2", "Points Equipe 2"]

  /** The headers written across row 1 of the overall results sheet. */
  const GlobalHeaders: seq<string> :=
    ["Joueur", "Total Points", "Nb 13 Points", "Classement", "Ex-Aequo"]

  const GlobalTitle: string := "Résultat Global"

  /** The title of the sheet of round `k` (counted from 1). */
  function RoundTitle(k: nat): string {
    RoundPrefix + DecimalString(k)
  }

  const RoundPrefix: string := "Partie "

  /** The title of round k ends in the digits of k, which read back as k. */
  lemma RoundTitleReadsBack(k: nat)
    ensures |RoundTitle(k)| > |RoundPrefix| && RoundTitle(k)[..|RoundPrefix|] == RoundPrefix
    ensures AllDigits(RoundTitle(k)[|RoundPrefix|..])
    ensures ParseDecimal(RoundTitle(k)[|RoundPrefix|..]) == k
  {
    assert RoundTitle(k)[|RoundPrefix|..] == DecimalString(k);
    DecimalRoundTrip(k);
  }

  /** No two rounds share a title, and no round title is the overall results
      title or the default sheet's title. */
  lemma RoundTitlesDistinct(a: nat, b: nat)
    ensures RoundTitle(a) == RoundTitle(b) ==> a == b
    ensures RoundTitle(a) != GlobalTitle && RoundTitle(a) != DefaultTitle
  {
    if RoundTitle(a) == RoundTitle(b) {
      assert DecimalString(a) == RoundTitle(a)[|RoundPrefix|..];
      assert DecimalString(b) == RoundTitle(b)[|RoundPrefix|..];
      DecimalStringInjective(a, b);
    }
    assert RoundTitle(a)[0] == 'P';
    assert GlobalTitle[0] == 'R' && DefaultTitle[0] == 'S';
  }

  /** Round titles stay different when case is ignored, and none equals the
      overall results title or the default title ignoring case. */
  lemma RoundTitlesDistinctIgnoringCase(a: nat, b: nat)
    ensures LowerText(RoundTitle(a)) == LowerText(RoundTitle(b)) ==> a == b
    ensures LowerText(RoundTitle(a)) != LowerText(GlobalTitle)
    ensures LowerText(RoundTitle(a)) != LowerText(DefaultTitle)
  {
    var p := |RoundPrefix|;
    if LowerText(RoundTitle(a)) == LowerText(RoundTitle(b)) {
      var da, db := DecimalString(a), DecimalString(b);
      assert RoundTitle(a)[p..] == da && RoundTitle(b)[p..] == db;
      assert |da| == |db|;
      forall i | 0 <= i < |da|
        ensures da[i] == db[i]
      {
        assert RoundTitle(a)[p + i] == da[i] && RoundTitle(b)[p + i] == db[i];
        assert LowerText(RoundTitle(a))[p + i] == LowerAscii(da[i]);
      }
      assert da == db;
      DecimalStringInjective(a, b);
    }
    assert LowerText(RoundTitle(a))[0] == 'p';
    assert LowerText(GlobalTitle)[0] == 'r' && LowerText(DefaultTitle)[0] == 's';
  }

  /** The cells a round sheet of team size t holds once all its writes are done:
      row 1 across the five header columns (and column t + 2), column 1 down to
      the longer of the "Terrain" rows and the first team, column t + 2 down the
      second team. */
  predicate RoundKey(key: Key, teams: Round, t: nat)
    requires |teams| == 2
  {
    InRowRun(key, 1, 1, 5) || key == (1, t + 2)
    || InColumnRun(key, 1, 2, Max(2 * t, |teams[0]|))
    || InColumnRun(key, t + 2, 2, |teams[1]|)
  }

  /** The value each such cell ends with. The five headers overwrite the
      "Equipe 1" label (and the "Equipe 2" label unless t + 2 > 5); the blank
      "Terrain" column overwrites the first team's ids in rows 2..2t+1; the
      second team's ids stay in column t + 2. */
  function RoundValue(key: Key, teams: Round, t: nat): Value
    requires |teams| == 2 && RoundKey(key, teams, t)
  {
    if key.0 == 1 then
      (if key.1 <= 5 then Str(RoundHeaders[key.1 - 1]) else Str("Equipe 2"))
    else if key.1 == 1 then
      (if key.0 < 2 * t + 2 then Str("") else Int(teams[0][key.0 - 2]))
    else
      Int(teams[1][key.0 - 2])
  }

  /** The whole final content of a round sheet. */
  ghost predicate RoundLayout(cells: Cells, teams: Round, t: nat) {
    |teams| == 2
    && (forall key :: key in cells <==> RoundKey(key, teams, t))
    && (forall key :: key in cells ==> cells[key] == RoundValue(key, teams, t))
  }

  /** The cells of the overall results sheet: its five headers and nothing else. */
  ghost predicate GlobalLayout(cells: Cells) {
    (forall key :: key in cells <==> InRowRun(key, 1, 1, 5))
    && forall c :: 1 <= c <= 5 ==> (1, c) in cells && cells[(1, c)] == Str(GlobalHeaders[c - 1])
  }

  /** The cells of a round sheet after each group of writes, in program order. */
  datatype RoundStages = RoundStages(labels: Cells, first: Cells, second: Cells, headed: Cells, done: Cells)

  /** The writes the generator makes on a round sheet: the two team labels in
      row 1, each team's ids down its column (team 0 in column 1, team 1 in
      column t + 2), the five headers across row 1, then 2t blank "Terrain"
      cells down column 1 from row 2. */
  ghost predicate RoundWrites(s: RoundStages, teams: Round, t: nat) {
    |teams| == 2
    && s.labels == map[(1, 1) := Str("Equipe 1")][(1, t + 2) := Str("Equipe 2")]
    && WrittenDown(s.first, s.labels, 1, 2, PlayerValues(teams[0]))
    && WrittenDown(s.second, s.first, t + 2, 2, PlayerValues(teams[1]))
    && WrittenAcross(s.headed, s.second, 1, 1, TextValues(RoundHeaders))
    && WrittenDown(s.done, s.headed, 1, 2, Blanks(2 * t))
  }

  lemma RoundWritesKeys(s: RoundStages, teams: Round, t: nat)
    requires RoundWrites(s, teams, t)
    ensures forall key :: key in s.done <==> RoundKey(key, teams, t)
  {
    assert forall key :: key in s.labels <==> key == (1, 1) || key == (1, t + 2);
  }

  lemma RoundWritesValues(s: RoundStages, teams: Round, t: nat)
    requires RoundWrites(s, teams, t)
    requires forall key :: key in s.done <==> RoundKey(key, teams, t)
    ensures forall key :: key in s.done ==> s.done[key] == RoundValue(key, teams, t)
  {
    forall key | key in s.done
      ensures s.done[key] == RoundValue(key, teams, t)
    {
      if !InColumnRun(key, 1, 2, 2 * t) && !InRowRun(key, 1, 1, 5)
         && !InColumnRun(key, t + 2, 2, |teams[1]|) && !InColumnRun(key, 1, 2, |teams[0]|) {
        assert key == (1, t + 2);
      }
    }
  }

  /** Writing a round sheet in the generator's order leaves exactly its
      layout: the cells RoundKey names, each holding its RoundValue. */
  lemma RoundWritesLayout(s: RoundStages, teams: Round, t: nat)
    requires RoundWrites(s, teams, t)
    ensures RoundLayout(s.done, teams, t)
  {
    RoundWritesKeys(s, teams, t);
    RoundWritesValues(s, teams, t);
  }

  /** Writes one round sheet in the order the generator does: the two team
      labels, each team's ids down its column, the five headers, then the
      blank "Terrain" column. */
  method RoundSheet(title: string, teams: Round, teamSize: nat) returns (ws: Sheet)
    requires |teams| == 2
    ensures ws.title == title && RoundLayout(ws.cells, teams, teamSize)
  {
    var t := teamSize;
    var labels: Cells := map[];
    labels := labels[(1, 1) := Str("Equipe 1")];
    labels := labels[(1, t + 2) := Str("Equipe 2")];
    // the loop over the round's two teams: team 0 goes down column 1, team 1 down column t + 2
    var first := WriteDown(labels, 1, 2, PlayerValues(teams[0]));
    var second := WriteDown(first, t + 2, 2, PlayerValues(teams[1]));
    var headed := WriteAcross(second, 1, 1, TextValues(RoundHeaders));
    var cells := WriteDown(headed, 1, 2, Blanks(2 * t));
    ws := Sheet(title, cells);
    RoundWritesLayout(RoundStages(labels, first, second, headed, cells), teams, t);
  }

  /** The cells a reader finds on a round sheet of team size t: row 1 holds the
      five headers in order (the team labels are overwritten), column 1 holds
      blanks in rows 2..2t+1 (the first team's ids are overwritten), and the
      i-th player of the second team sits in row i + 1 of column t + 2. */
  lemma RoundSheetCells(cells: Cells, teams: Round, t: nat)
    requires RoundLayout(cells, teams, t)
    ensures forall c :: 1 <= c <= 5 ==> (1, c) in cells && cells[(1, c)] == Str(RoundHeaders[c - 1])
    ensures forall r :: 2 <= r < 2 * t + 2 ==> (r, 1) in cells && cells[(r, 1)] == Str("")
    ensures forall i :: 0 <= i < |teams[1]| ==> (i + 2, t + 2) in cells && cells[(i + 2, t + 2)] == Int(teams[1][i])
    ensures (1, t + 2) in cells && cells[(1, t + 2)] == if t <= 3 then Str(RoundHeaders[t + 1]) else Str("Equipe 2")
  {
    forall c | 1 <= c <= 5
      ensures (1, c) in cells && cells[(1, c)] == Str(RoundHeaders[c - 1])
    {
      assert RoundKey((1, c), teams, t);
    }
    forall r | 2 <= r < 2 * t + 2
      ensures (r, 1) in cells && cells[(r, 1)] == Str("")
    {
      assert RoundKey((r, 1), teams, t);
    }
    forall i | 0 <= i < |teams[1]|
      ensures (i + 2, t + 2) in cells && cells[(i + 2, t + 2)] == Int(teams[1][i])
    {
      assert RoundKey((i + 2, t + 2), teams, t);
    }
    assert RoundKey((1, t + 2), teams, t);
  }

  /** On a sheet whose first team fits in the "Terrain" rows (always so for a
      drawn round), every player id left on the sheet belongs to the second team. */
  lemma OnlySecondTeamShown(cells: Cells, teams: Round, t: nat)
    requires RoundLayout(cells, teams, t) && |teams[0]| <= 2 * t
    ensures forall key :: key in cells && cells[key].Int? ==> cells[key].n in teams[1]
  {
  }

  /** The sheet titles of a workbook of m rounds: "Partie 1" .. "Partie m",
      then the overall results sheet. */
  predicate SheetTitlesInOrder(sheets: seq<Sheet>, m: nat) {
    |sheets| == m + 1
    && (forall k :: 0 <= k < m ==> sheets[k].title == RoundTitle(k + 1))
    && sheets[m].title == GlobalTitle
  }

  /** Those titles are pairwise different and none is the default sheet's. */
  lemma SheetTitlesUnique(sheets: seq<Sheet>, m: nat)
    requires SheetTitlesInOrder(sheets, m)
    ensures DefaultTitle !in Titles(sheets)
    ensures forall i, j :: 0 <= i < j < |sheets| ==> sheets[i].title != sheets[j].title
  {
    forall i, j | 0 <= i < j < |sheets|
      ensures sheets[i].title != sheets[j].title
    {
      RoundTitlesDistinct(i + 1, j + 1);
    }
    var titles := Titles(sheets);
    forall i | 0 <= i < |titles|
      ensures titles[i] != DefaultTitle
    {
      if i < m {
        RoundTitlesDistinct(i + 1, i + 1);
      } else {
        assert |GlobalTitle| != |DefaultTitle|;
      }
    }
  }

  /** The titles also differ pairwise when case is ignored, and none equals the
      default title ignoring case, so a workbook never renames one of them. */
  lemma SheetTitlesUniqueIgnoringCase(sheets: seq<Sheet>, m: nat)
    requires SheetTitlesInOrder(sheets, m)
    ensures forall i :: 0 <= i < |sheets| ==> LowerText(sheets[i].title) != LowerText(DefaultTitle)
    ensures forall i, j :: 0 <= i < j < |sheets| ==> LowerText(sheets[i].title) != LowerText(sheets[j].title)
  {
    forall i | 0 <= i < |sheets|
      ensures LowerText(sheets[i].title) != LowerText(DefaultTitle)
    {
      if i < m {
        RoundTitlesDistinctIgnoringCase(i + 1, i + 1);
      } else {
        assert |GlobalTitle| != |DefaultTitle|;
      }
    }
    forall i, j | 0 <= i < j < |sheets|
      ensures LowerText(sheets[i].title) != LowerText(sheets[j].title)
    {
      RoundTitlesDistinctIgnoringCase(i + 1, j + 1);
    }
  }

  /** Builds the workbook's values from the recorded rounds: a new workbook,
      one round sheet per round in order, the overall results sheet with its
      headers, then the default sheet removed. */
  method BuildWorkbook(matches: seq<Round>, teamSize: nat) returns (wb: Workbook)
    requires forall k :: 0 <= k < |matches| ==> |matches[k]| == 2
    ensures SheetTitlesInOrder(wb.sheets, |matches|)
    ensures forall k :: 0 <= k < |matches| ==> RoundLayout(wb.sheets[k].cells, matches[k], teamSize)
    ensures GlobalLayout(wb.sheets[|matches|].cells)
  {
    var sheets := NewWorkbook().sheets;
    var k := 0;
    while k < |matches|
      invariant 0 <= k <= |matches|
      invariant |sheets| == k + 1 && sheets[0] == Sheet(DefaultTitle, map[])
      invariant forall j :: 1 <= j <= k ==>
        sheets[j].title == RoundTitle(j) && RoundLayout(sheets[j].cells, matches[j - 1], teamSize)
    {
      var ws := RoundSheet(RoundTitle(k + 1), matches[k], teamSize);
      sheets := sheets + [ws];
      k := k + 1;
    }
    var globalCells := WriteAcross(map[], 1, 1, TextValues(GlobalHeaders));
    sheets := sheets + [Sheet(GlobalTitle, globalCells)];
    assert Titles(sheets)[0] == DefaultTitle;
    ghost var built := sheets;
    if DefaultTitle in Titles(sheets) {
      var i := IndexOfTitle(sheets, DefaultTitle);
      assert i == 0;
      sheets := sheets[..i] + sheets[i + 1..];
    }
    assert sheets == built[1..];
    wb := Workbook(sheets);
  }

  // ---------------------------------------------------------------------------
  // The tournament
  // ---------------------------------------------------------------------------

  class PetanqueTournament {
    var teamType: string
    var numPlayers: int
    var numMatches: int
    var teamSize: nat
    var players: seq<int>
    var matches: seq<Round>
    var playerPoints: map<int, int>
    var player13Points: map<int, int>

    /** The invariant kept by every operation: the player count splits into
        full teams, the player list is an ordering of 1..numPlayers, and every
        recorded round is a well-formed draw. */
    ghost predicate Valid()
      reads this
    {
      teamSize == TeamSize(teamType)
      && numPlayers % (2 * teamSize) == 0
      && multiset(players) == multiset(PlayerIds(numPlayers))
      && Distinct(players)
      && forall k :: 0 <= k < |matches| ==> IsDraw(matches[k], numPlayers, teamSize)
    }

    /** The state right after construction. */
    ghost predicate Initial(teamType: string, numPlayers: int, numMatches: int)
      reads this
    {
      this.teamType == teamType && this.numPlayers == numPlayers && this.numMatches == numMatches
      && teamSize == TeamSize(teamType)
      && players == PlayerIds(numPlayers)
      && matches == []
      && (forall p :: p in playerPoints <==> 1 <= p <= numPlayers)
      && (forall p :: p in playerPoints ==> playerPoints[p] == 0)
      && (forall p :: p in player13Points <==> 1 <= p <= numPlayers)
      && (forall p :: p in player13Points ==> player13Points[p] == 0)
    }

    /** Sets up the fields once the player count is known to be valid (see
        NewTournament for the check and the error). */
    constructor (teamType: string, numPlayers: int, numMatches: int)
      requires numPlayers % (2 * TeamSize(teamType)) == 0
      ensures Valid() && Initial(teamType, numPlayers, numMatches)
    {
      this.teamType := teamType;
      this.numPlayers := numPlayers;
      this.numMatches := numMatches;
      teamSize := TeamSize(teamType);
      var ids := PlayerIds(numPlayers);
      players := ids;
      matches := [];
      playerPoints := map p | p in ids :: 0;
      player13Points := map p | p in ids :: 0;
      new;
      forall p ensures p in ids <==> 1 <= p <= numPlayers {
        PlayerIdsMembers(numPlayers, p);
      }
    }

    /** Records numMatches more rounds. The players are shuffled once, before
        the loop, so every round recorded by one call is the same; rounds
        recorded earlier are kept. Returns the whole list of rounds. */
    method GenerateMatches(randBelow: nat -> nat) returns (r: seq<Round>)
      requires Valid()
      requires forall m: nat :: 0 < m ==> randBelow(m) < m
      modifies this`players, this`matches
      ensures Valid()
      ensures |players| == |old(players)| && multiset(players) == multiset(old(players))
      ensures |matches| == |old(matches)| + RoundCount(numMatches)
      ensures matches[..|old(matches)|] == old(matches)
      ensures forall k :: |old(matches)| <= k < |matches| ==> matches[k] == MatchTeams(players, teamSize)
      ensures r == matches
    {
      players := Shuffle(players, randBelow);
      MatchTeamsIsDraw(players, numPlayers, teamSize);
      ghost var shuffled := players;
      var round := 0;
      while round < numMatches
        invariant 0 <= round <= RoundCount(numMatches)
        invariant players == shuffled
        invariant forall k :: 0 <= k < |matches| ==> IsDraw(matches[k], numPlayers, teamSize)
        invariant |matches| == |old(matches)| + round
        invariant matches[..|old(matches)|] == old(matches)
        invariant forall k :: |old(matches)| <= k < |matches| ==> matches[k] == MatchTeams(players, teamSize)
      {
        var teams := DrawTeams(players, teamSize);
        matches := matches + [teams];
        round := round + 1;
      }
      r := matches;
    }

    /** The workbook's values and the file name it would be saved under: one
        sheet per recorded round titled "Partie 1", "Partie 2", ..., laid out
        as RoundLayout says, then the overall results sheet; the default sheet
        is removed, and no two sheets share a title. */
    method CreateExcelFile() returns (wb: Workbook, filename: string)
      requires Valid()
      ensures SheetTitlesInOrder(wb.sheets, |matches|)
      ensures forall k :: 0 <= k < |matches| ==> RoundLayout(wb.sheets[k].cells, matches[k], teamSize)
      ensures GlobalLayout(wb.sheets[|matches|].cells)
      ensures DefaultTitle !in Titles(wb.sheets)
      ensures forall i, j :: 0 <= i < j < |wb.sheets| ==> wb.sheets[i].title != wb.sheets[j].title
      ensures filename == "Tournoi_Petanque_" + Capitalize(teamType) + ".xlsx"
    {
      wb := BuildWorkbook(matches, teamSize);
      SheetTitlesUnique(wb.sheets, |matches|);
      filename := "Tournoi_Petanque_" + Capitalize(teamType) + ".xlsx";
    }
  }

  /** The constructor: chooses the team size from the team type and raises
      ValueError unless the player count is a multiple of twice the team size
      (Python's %, which for a positive divisor agrees with Dafny's). */
  method NewTournament(teamType: string, numPlayers: int, numMatches: int)
    returns (r: Result<PetanqueTournament, ConfigError>)
    ensures r.Failure? <==> numPlayers % (2 * TeamSize(teamType)) != 0
    ensures r.Failure? ==> r.error == ValueError(MultipleMessage(2 * TeamSize(teamType)))
    ensures r.Success? ==> fresh(r.value) && r.value.Valid() && r.value.Initial(teamType, numPlayers, numMatches)
  {
    var teamSize := TeamSize(teamType);
    if numPlayers % (teamSize * 2) != 0 {
      return Failure(ValueError(MultipleMessage(teamSize * 2)));
    }
    var t := new PetanqueTournament(teamType, numPlayers, numMatches);
    return Success(t);
  }
}
