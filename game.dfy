/**
 * The game orchestrator (DartsGame): the roster of two to four players, the
 * per-player Cricket boards and closed sets, the current round and its
 * number, the X01 checkout suggestions and the cooldown between turns.
 */
module Game {
  import opened Wrappers
  import opened Modes
  import opened Throws
  import opened Rounds
  import opened Players
  import opened Cricket
  import opened CheckoutSpec
  import CheckoutCalculator
  import opened GameRules

  /** The players' states, in roster order. */
  function RosterOf(ps: seq<Player>): (r: seq<PlayerState>)
    reads ps
    ensures |r| == |ps|
  {
    seq(|ps|, i reads ps requires 0 <= i < |ps| => ps[i].State())
  }

  /** The players' names, in roster order. */
  function NamesOf(ps: seq<Player>): (ns: seq<string>)
    ensures |ns| == |ps|
    ensures forall i :: 0 <= i < |ps| ==> ns[i] == ps[i].name
  {
    seq(|ps|, i requires 0 <= i < |ps| => ps[i].name)
  }

  lemma RosterOfAppend(ps: seq<Player>, p: Player)
    ensures RosterOf(ps + [p]) == RosterOf(ps) + [p.State()]
    ensures NamesOf(ps + [p]) == NamesOf(ps) + [p.name]
  {
  }

  lemma RosterOfRemove(ps: seq<Player>, k: nat)
    requires k < |ps|
    ensures RosterOf(RemoveAt(ps, k)) == RemoveAt(RosterOf(ps), k)
    ensures NamesOf(RemoveAt(ps, k)) == RemoveAt(NamesOf(ps), k)
  {
  }

  lemma PlayersValidAppend(ps: seq<Player>, p: Player)
    requires PlayersValid(ps) && p.Valid()
    ensures PlayersValid(ps + [p])
  {
  }

  lemma PlayersValidRemove(ps: seq<Player>, k: nat)
    requires PlayersValid(ps) && k < |ps|
    ensures PlayersValid(RemoveAt(ps, k))
  {
  }

  /** The foreach over CRICKET_NUMBERS that fills a new board with zeros
      leaves exactly the board ZeroMarks describes. */
  lemma ZeroBoard(board: Counts)
    requires forall n :: n in board <==> n in CRICKET_ORDER[..|CRICKET_ORDER|]
    requires forall n :: n in board ==> board[n] == 0
    ensures board == ZeroMarks()
  {
    assert CRICKET_ORDER[..|CRICKET_ORDER|] == CRICKET_ORDER;
    CricketOrderListsNumbers();
    assert board.Keys == ZeroMarks().Keys;
  }

  /** Every player keeps their own invariant. */
  ghost predicate PlayersValid(ps: seq<Player>)
    reads ps
  {
    forall i :: 0 <= i < |ps| ==> ps[i].Valid()
  }

  /** The roster's names and boards: at most four distinct names, each with
      a board; a closed set for every board; every board well formed. */
  predicate RosterBoards(names: seq<string>, scores: map<string, Counts>, closed: map<string, set<int>>) {
    && |names| <= 4
    && (forall i, j :: 0 <= i < j < |names| ==> names[i] != names[j])
    && (forall i :: 0 <= i < |names| ==> names[i] in scores)
    && scores.Keys == closed.Keys
    && (forall q {:trigger WellFormed(scores[q], closed[q])} :: q in scores ==> WellFormed(scores[q], closed[q]))
  }

  /** A new name with a fresh board keeps the boards in order. */
  lemma RosterBoardsAppend(names: seq<string>, scores: map<string, Counts>, closed: map<string, set<int>>, name: string)
    requires RosterBoards(names, scores, closed) && |names| < 4 && name !in names
    ensures RosterBoards(names + [name], scores[name := ZeroMarks()], closed[name := {}])
  {
    ZeroMarksWellFormed();
  }

  /** A board created on first use for a name outside the map keeps the boards in order. */
  lemma RosterBoardsNewEntry(names: seq<string>, scores: map<string, Counts>, closed: map<string, set<int>>, name: string)
    requires RosterBoards(names, scores, closed) && name !in scores
    ensures RosterBoards(names, scores[name := ZeroMarks()], closed[name := {}])
  {
    ZeroMarksWellFormed();
  }

  /** After InitializeCricketScores: every listed name has a zero board and
      an empty closed set, and every other name keeps what it had. */
  ghost predicate Refreshed(names: seq<string>, scores0: map<string, Counts>, closed0: map<string, set<int>>,
                            scores: map<string, Counts>, closed: map<string, set<int>>)
  {
    && (forall q :: q in scores <==> q in scores0 || q in names)
    && (forall q :: q in closed <==> q in closed0 || q in names)
    && (forall q :: q in names ==> scores[q] == ZeroMarks() && closed[q] == {})
    && (forall q :: q in scores0 && q !in names ==> scores[q] == scores0[q])
    && (forall q :: q in closed0 && q !in names ==> closed[q] == closed0[q])
  }

  /** One turn of the outer loop: the next name gets a fresh board. */
  lemma RefreshedStep(names: seq<string>, i: nat, scores0: map<string, Counts>, closed0: map<string, set<int>>,
                      scores: map<string, Counts>, closed: map<string, set<int>>)
    requires i < |names| && Refreshed(names[..i], scores0, closed0, scores, closed)
    ensures Refreshed(names[..i + 1], scores0, closed0, scores[names[i] := ZeroMarks()], closed[names[i] := {}])
  {
    assert forall q :: q in names[..i + 1] <==> q in names[..i] || q == names[i] by {
      assert names[..i + 1] == names[..i] + [names[i]];
    }
  }

  /** Fresh boards for every name of the roster keep the boards in order. */
  lemma RosterBoardsRefreshed(names: seq<string>, scores0: map<string, Counts>, closed0: map<string, set<int>>,
                              scores: map<string, Counts>, closed: map<string, set<int>>)
    requires RosterBoards(names, scores0, closed0)
    requires Refreshed(names, scores0, closed0, scores, closed)
    ensures RosterBoards(names, scores, closed)
  {
    ZeroMarksWellFormed();
  }

  /** Removing a name and its board keeps the boards in order. */
  lemma RosterBoardsRemove(names: seq<string>, scores: map<string, Counts>, closed: map<string, set<int>>, k: nat)
    requires RosterBoards(names, scores, closed) && k < |names|
    ensures RosterBoards(RemoveAt(names, k), scores - {names[k]}, closed - {names[k]})
  {
    var r := RemoveAt(names, k);
    forall i | 0 <= i < |r|
      ensures r[i] != names[k] && r[i] in scores
    {
      if i < k { assert r[i] == names[i]; } else { assert r[i] == names[i + 1]; }
    }
    forall i, j | 0 <= i < j < |r|
      ensures r[i] != r[j]
    {
      var i' := if i < k then i else i + 1;
      var j' := if j < k then j else j + 1;
      assert r[i] == names[i'] && r[j] == names[j'];
    }
  }

  /** The game's value fields: the mode, the turn index, the per-player
      Cricket boards (marks per number) and closed sets, the round number,
      the checkout suggestions and the cooldown. */
  datatype GameData = GameData(
    mode: GameMode,
    index: int,
    scores: map<string, Counts>,
    closed: map<string, set<int>>,
    roundNumber: int,
    checkouts: seq<Combination>,
    inCooldown: bool,
    cooldownSeconds: int)

  /** The value part of the game's invariant: at most four distinct names,
      each with a well-formed board; the turn index points into the roster
      (0 when it is empty); a cooldown runs only after a completed round and
      counts down from 5. */
  predicate Consistent(names: seq<string>, d: GameData, roundComplete: bool) {
    && RosterBoards(names, d.scores, d.closed)
    && (if |names| == 0 then d.index == 0 else 0 <= d.index < |names|)
    && d.roundNumber >= 1
    && (d.inCooldown ==> |names| > 0 && roundComplete && 1 <= d.cooldownSeconds <= 5)
    && (!d.inCooldown ==> d.cooldownSeconds == 0)
  }

  /** AddPlayer keeps the value invariant. */
  lemma ConsistentAppend(names: seq<string>, d: GameData, complete: bool, name: string)
    requires Consistent(names, d, complete) && |names| < 4 && name !in names
    ensures Consistent(names + [name], d.(scores := d.scores[name := ZeroMarks()], closed := d.closed[name := {}]), complete)
  {
    RosterBoardsAppend(names, d.scores, d.closed, name);
  }

  /** RemovePlayer keeps the value invariant. */
  lemma ConsistentRemove(names: seq<string>, d: GameData, complete: bool, k: nat)
    requires Consistent(names, d, complete) && k < |names| && |names| > 2
    ensures Consistent(RemoveAt(names, k),
                       d.(index := IndexAfterRemove(d.index, k, |names| - 1),
                          scores := d.scores - {names[k]}, closed := d.closed - {names[k]}), complete)
  {
    RosterBoardsRemove(names, d.scores, d.closed, k);
  }

  /** The game's values once `name` has a board: GetPlayerCricketScores
      creates a zero board and an empty closed set on first use. */
  function WithBoard(d: GameData, name: string): GameData {
    if name in d.scores then d
    else d.(scores := d.scores[name := ZeroMarks()], closed := d.closed[name := {}])
  }

  /** Creating a board on first use is idempotent, changes no name's marks
      as MarkOf reads them, and adds at most the one name. */
  lemma WithBoardMeaning(d: GameData, name: string)
    ensures WithBoard(WithBoard(d, name), name) == WithBoard(d, name)
    ensures forall q, n :: MarkOf(WithBoard(d, name).scores, q, n) == MarkOf(d.scores, q, n)
    ensures WithBoard(d, name).scores.Keys == d.scores.Keys + {name}
    ensures name in d.scores ==> WithBoard(d, name) == d
  {
    forall q, n ensures MarkOf(WithBoard(d, name).scores, q, n) == MarkOf(d.scores, q, n) {
    }
  }

  /** ProcessCricketRoundScore keeps the value invariant: the thrower's
      board is replaced by another well-formed one. */
  lemma ConsistentBoard(names: seq<string>, d: GameData, complete: bool, name: string, counts: Counts, closed: set<int>)
    requires Consistent(names, d, complete) && name in d.scores && WellFormed(counts, closed)
    ensures Consistent(names, d.(scores := d.scores[name := counts], closed := d.closed[name := closed]), complete)
  {
    var scores := d.scores[name := counts];
    var closed' := d.closed[name := closed];
    forall q | q in scores
      ensures WellFormed(scores[q], closed'[q])
    {
      if q != name {
        assert WellFormed(d.scores[q], d.closed[q]);
      }
    }
  }

  /** A valid round whose objects are neither the game nor a player. */
  ghost predicate RoundApart(r: Round, g: object, ps: seq<Player>)
    reads r, r.Repr
  {
    r.Valid() && g !in r.Repr && forall i :: 0 <= i < |ps| ==> ps[i] !in r.Repr
  }

  /** Players with distinct names are distinct objects. */
  lemma DistinctPlayers(ps: seq<Player>)
    requires forall i, j :: 0 <= i < j < |NamesOf(ps)| ==> NamesOf(ps)[i] != NamesOf(ps)[j]
    ensures forall i, j :: 0 <= i < j < |ps| ==> ps[i] != ps[j]
  {
    forall i, j | 0 <= i < j < |ps|
      ensures ps[i] != ps[j]
    {
      assert NamesOf(ps)[i] != NamesOf(ps)[j];
    }
  }

  /** A valid slot of a round holds a throw that passed ValidateThrow. */
  lemma RoundSlotsValid(r: Round)
    requires r.Valid()
    ensures ValidSlots(r.Slots())
  {
    assert r.throws[0].Consistent() && r.throws[1].Consistent() && r.throws[2].Consistent();
  }

  /** The X01 suggestions refreshed after a dart: the checkouts for the
      thrower's score minus the round so far; Cricket keeps the list. */
  function WithSuggestions(d: GameData, score: int, slots: seq<Slot>): GameData {
    if d.mode == X01 then d.(checkouts := Suggestions(X01, true, score, Total(slots))) else d
  }

  /** A completed round scored for the thrower (state s, board b): the X01
      commit, or the Cricket darts applied to the thrower's board; then the
      5-second cooldown. */
  function RoundEnd(s: PlayerState, b: Board, d: GameData, names: seq<string>, slots: seq<Slot>): (PlayerState, GameData)
    requires b.counts.Keys == CRICKET_NUMBERS
  {
    if d.mode == X01 then
      (s.(score := X01Commit(s.score, Total(slots))), d.(inCooldown := true, cooldownSeconds := 5))
    else
      var after := CricketRound(b, slots, OthersClosed(names, d.scores, s.name));
      (s.(score := after.score),
       d.(scores := d.scores[s.name := after.counts], closed := d.closed[s.name := after.closed],
          inCooldown := true, cooldownSeconds := 5))
  }

  /** What one accepted dart does to the thrower (state s, board b) and to
      the game's values: the per-dart statistics, the X01 suggestions and,
      when the dart completes the round, RoundEnd. */
  function AfterDart(s: PlayerState, b: Board, d: GameData, names: seq<string>, slots: seq<Slot>, complete: bool,
                     number: int, marks: int): (PlayerState, GameData)
    requires b.counts.Keys == CRICKET_NUMBERS
  {
    var stats := DartStats(s, d.mode, names, d.scores, d.closed, number, marks);
    var d1 := WithSuggestions(d, s.score, slots);
    if complete then RoundEnd(stats, b, d1, names, slots) else (stats, d1)
  }

  /** What an accepted dart promises: one more throw, with the name, account,
      rounds and legs untouched; the cooldown starts exactly when the round is
      complete; an X01 score never drops below zero and only changes when the
      round is complete; a Cricket round keeps the thrower's board well formed,
      takes no marks away and touches no other player's board. */
  lemma AfterDartMeaning(s: PlayerState, b: Board, d: GameData, names: seq<string>, slots: seq<Slot>,
                         complete: bool, number: int, marks: int)
    requires WellFormed(b.counts, b.closed) && ValidSlots(slots) && !d.inCooldown
    ensures var r := AfterDart(s, b, d, names, slots, complete, number, marks);
      && r.0.totalThrows == s.totalThrows + 1
      && r.0.name == s.name && r.0.userId == s.userId
      && r.0.totalRounds == s.totalRounds && r.0.legsWon == s.legsWon && r.0.legsPlayed == s.legsPlayed
      && (r.1.inCooldown <==> complete) && (complete ==> r.1.cooldownSeconds == 5)
      && r.1.mode == d.mode && r.1.index == d.index && r.1.roundNumber == d.roundNumber
      && (!complete ==> r.0.score == s.score && r.1.scores == d.scores && r.1.closed == d.closed)
      && (d.mode == X01 ==> r.1.scores == d.scores && r.1.closed == d.closed)
      && (d.mode == X01 && s.score >= 0 ==> r.0.score >= 0)
      && (d.mode == Cricket ==> r.1.checkouts == d.checkouts)
      && (forall q :: q in d.scores && q != s.name ==> q in r.1.scores && r.1.scores[q] == d.scores[q])
      && (d.mode == Cricket && complete ==>
            && s.name in r.1.scores && s.name in r.1.closed
            && WellFormed(r.1.scores[s.name], r.1.closed[s.name])
            && b.closed <= r.1.closed[s.name]
            && (forall n :: n in b.counts ==> b.counts[n] <= r.1.scores[s.name][n]))
  {
    DartStatsMeaning(s, d.mode, names, d.scores, d.closed, number, marks);
    if d.mode == Cricket && complete {
      CricketRoundMonotone(b, slots, OthersClosed(names, d.scores, s.name));
    }
  }

  class DartsGame {
    var players: seq<Player>
    var round: Round
    var data: GameData

    ghost predicate Valid()
      reads this, players, round, round.Repr
    {
      && RoundApart(round, this, players)
      && PlayersValid(players)
      && Consistent(NamesOf(players), data, round.IsComplete())
    }

    /** CurrentPlayer's name, None for an empty roster. */
    function CurrentName(): (n: Option<string>)
      reads this
      requires |players| == 0 || 0 <= data.index < |players|
      ensures n.None? <==> |players| == 0
    {
      if |players| > 0 then Some(players[data.index].name) else None
    }

    /** The current player's score, 0 for an empty roster. */
    function CurrentScore(): int
      reads this, players
      requires |players| == 0 || 0 <= data.index < |players|
    {
      if |players| > 0 then players[data.index].score else 0
    }

    /** The current player's board, closed set and score. */
    ghost function CurrentBoard(): (b: Board)
      reads this, players, round, round.Repr
      requires Valid() && |players| > 0
      ensures players[data.index].name in data.scores && players[data.index].name in data.closed
      ensures b == Board(data.scores[players[data.index].name], data.closed[players[data.index].name], players[data.index].score)
      ensures WellFormed(b.counts, b.closed)
    {
      var q := players[data.index].name;
      assert WellFormed(data.scores[q], data.closed[q]);
      Board(data.scores[q], data.closed[q], players[data.index].score)
    }

    /** new Dictionary plus the foreach over CRICKET_NUMBERS that sets each
        count to 0. */
    static method NewBoard() returns (board: Counts)
      ensures board == ZeroMarks()
    {
      board := map[];
      for j := 0 to |CRICKET_ORDER|
        invariant forall n :: n in board <==> n in CRICKET_ORDER[..j]
        invariant forall n :: n in board ==> board[n] == 0
      {
        board := board[CRICKET_ORDER[j] := 0];
      }
      ZeroBoard(board);
    }

    /** The constructor adds "Jugador 1" and "Jugador 2", gives them fresh
        boards and opens round 1 for the first of them. */
    constructor (mode: GameMode)
      ensures Valid()
      ensures |players| == 2
      ensures players[0].State() == NewPlayer("Jugador 1", StartScore(mode), None)
      ensures players[1].State() == NewPlayer("Jugador 2", StartScore(mode), None)
      ensures forall q :: q in data.scores <==> q in NamesOf(players)
      ensures forall q :: q in NamesOf(players) ==> data.scores[q] == ZeroMarks() && data.closed[q] == {}
      ensures data == GameData(mode, 0, data.scores, data.closed, 1, Suggestions(mode, true, StartScore(mode), 0), false, 0)
      ensures round.playerName == "Jugador 1" && round.roundNumber == 1 && round.currentThrowIndex == 0
    {
      players := [];
      data := GameData(mode, 0, map[], map[], 1, [], false, 0);
      // The source has no round until StartNewRound below creates one.
      round := new Round("", 1);
      new;
      AddDefaultPlayers();
      InitializeCricketScores();
      StartNewRound();
    }

    /** The constructor's AddPlayer("Jugador 1") and AddPlayer("Jugador 2")
        on the empty roster: both succeed with the mode's start score. */
    method AddDefaultPlayers()
      requires Valid() && players == [] && data.scores == map[]
      modifies this
      ensures Valid() && round == old(round)
      ensures |players| == 2
      ensures players[0].State() == NewPlayer("Jugador 1", StartScore(data.mode), None)
      ensures players[1].State() == NewPlayer("Jugador 2", StartScore(data.mode), None)
      ensures forall q :: q in data.scores <==> q in NamesOf(players)
      ensures data == old(data).(scores := data.scores, closed := data.closed)
    {
      var first := AddPlayer("Jugador 1", -1, None);
      assert first;
      assert NamesOf(players) == ["Jugador 1"] by {
        assert players[0].State().name == "Jugador 1";
      }
      assert "Jugador 2" !in NamesOf(players) by {
        assert "Jugador 2"[8] != "Jugador 1"[8];
      }
      var second := AddPlayer("Jugador 2", -1, None);
      assert second;
    }

    /** InitializeCricketScores: a fresh board and an empty closed set for
        every player of the roster; other names keep theirs. */
    method InitializeCricketScores()
      requires Valid()
      modifies this
      ensures Valid() && players == old(players) && round == old(round)
      ensures Refreshed(NamesOf(players), old(data.scores), old(data.closed), data.scores, data.closed)
      ensures data == old(data).(scores := data.scores, closed := data.closed)
    {
      var scores, closed := FreshBoards(NamesOf(players), data.scores, data.closed);
      RosterBoardsRefreshed(NamesOf(players), data.scores, data.closed, scores, closed);
      data := data.(scores := scores, closed := closed);
    }

    /** The loop of InitializeCricketScores: each name in turn gets a new
        board, filled with zeros by the inner foreach, and an empty closed set. */
    static method FreshBoards(names: seq<string>, scores0: map<string, Counts>, closed0: map<string, set<int>>)
      returns (scores: map<string, Counts>, closed: map<string, set<int>>)
      ensures Refreshed(names, scores0, closed0, scores, closed)
    {
      scores, closed := scores0, closed0;
      for i := 0 to |names|
        invariant Refreshed(names[..i], scores0, closed0, scores, closed)
      {
        var board := NewBoard();
        RefreshedStep(names, i, scores0, closed0, scores, closed);
        scores := scores[names[i] := board];
        closed := closed[names[i] := {}];
      }
      assert names[..|names|] == names;
    }

    /** GetPlayerCricketScores: the name's board, created on first use. */
    method GetPlayerCricketScores(playerName: string) returns (m: Counts)
      requires Valid()
      modifies this
      ensures Valid() && players == old(players) && round == old(round)
      ensures data == WithBoard(old(data), playerName)
      ensures playerName in data.closed && m == data.scores[playerName]
      ensures WellFormed(m, data.closed[playerName])
    {
      if playerName !in data.scores {
        var board := NewBoard();
        RosterBoardsNewEntry(NamesOf(players), data.scores, data.closed, playerName);
        data := data.(scores := data.scores[playerName := board], closed := data.closed[playerName := {}]);
      }
      m := data.scores[playerName];
      assert WellFormed(m, data.closed[playerName]);
    }

    /** GetPlayerClosedNumbers: the name's closed set, created on first use. */
    method GetPlayerClosedNumbers(playerName: string) returns (c: set<int>)
      requires Valid()
      modifies this
      ensures Valid() && players == old(players) && round == old(round)
      ensures data == WithBoard(old(data), playerName)
      ensures playerName in data.scores && c == data.closed[playerName]
      ensures WellFormed(data.scores[playerName], c)
    {
      if playerName !in data.closed {
        var board := NewBoard();
        RosterBoardsNewEntry(NamesOf(players), data.scores, data.closed, playerName);
        data := data.(scores := data.scores[playerName := board], closed := data.closed[playerName := {}]);
      }
      assert WellFormed(data.scores[playerName], data.closed[playerName]);
      c := data.closed[playerName];
    }

    /** AddPlayer: refused when the roster is full (4) or the name is taken;
        otherwise the player joins at the end with the given score (the
        mode's start score for -1), a fresh board and no closed numbers. */
    method AddPlayer(playerName: string, initialScore: int, userId: Option<string>) returns (ok: bool)
      requires Valid()
      modifies this
      ensures Valid() && round == old(round)
      ensures ok <==> |old(players)| < 4 && playerName !in NamesOf(old(players))
      ensures ok ==>
        && |players| == |old(players)| + 1 && players[..|old(players)|] == old(players)
        && fresh(players[|old(players)|])
        && players[|old(players)|].State() ==
             NewPlayer(playerName, if initialScore == -1 then StartScore(data.mode) else initialScore, userId)
        && data == old(data).(scores := old(data.scores)[playerName := ZeroMarks()],
                              closed := old(data.closed)[playerName := {}])
      ensures !ok ==> players == old(players) && data == old(data)
    {
      if |players| >= 4 {
        return false;
      }
      if playerName in NamesOf(players) {
        return false;
      }
      var score := initialScore;
      if score == -1 {
        score := if data.mode == X01 then 501 else 0;
      }
      ConsistentAppend(NamesOf(players), data, round.IsComplete(), playerName);
      var p := new Player(playerName, score, userId);
      assert NamesOf(players + [p]) == NamesOf(players) + [playerName];
      PlayersValidAppend(players, p);
      players, data := players + [p],
        data.(scores := data.scores[playerName := ZeroMarks()], closed := data.closed[playerName := {}]);
      return true;
    }

    /** RemovePlayer: refused while only two players remain or for an unknown
        name; otherwise the player, their board and closed set go, and the
        turn index is adjusted as IndexAfterRemove says. */
    method RemovePlayer(playerName: string) returns (ok: bool)
      requires Valid()
      modifies this
      ensures Valid() && round == old(round)
      ensures ok <==> |old(players)| > 2 && playerName in NamesOf(old(players))
      ensures ok ==>
        var k := IndexOfName(NamesOf(old(players)), playerName).value;
        && players == RemoveAt(old(players), k)
        && data == old(data).(index := IndexAfterRemove(old(data.index), k, |players|),
                              scores := old(data.scores) - {playerName},
                              closed := old(data.closed) - {playerName})
      ensures !ok ==> players == old(players) && data == old(data)
    {
      if |players| <= 2 {
        return false;
      }
      var found := IndexOfName(NamesOf(players), playerName);
      if found.None? {
        return false;
      }
      var k := found.value;
      ConsistentRemove(NamesOf(players), data, round.IsComplete(), k);
      assert NamesOf(RemoveAt(players, k)) == RemoveAt(NamesOf(players), k);
      PlayersValidRemove(players, k);
      players, data := RemoveAt(players, k),
        data.(index := IndexAfterRemove(data.index, k, |players| - 1),
              scores := data.scores - {playerName}, closed := data.closed - {playerName});
      return true;
    }

    /** ClearPlayers: an empty roster, no boards, index 0, no cooldown and
        round number 1; the current round stays, since StartNewRound needs a
        current player. */
    method ClearPlayers()
      requires Valid()
      modifies this
      ensures Valid() && round == old(round)
      ensures players == []
      ensures data == old(data).(index := 0, scores := map[], closed := map[], roundNumber := 1,
                                 inCooldown := false, cooldownSeconds := 0)
    {
      players, data := [],
        data.(index := 0, scores := map[], closed := map[], inCooldown := false, cooldownSeconds := 0, roundNumber := 1);
      StartNewRound();
    }

    /** SwitchPlayer: the turn passes to the next player, cyclically. */
    method SwitchPlayer()
      requires Valid()
      modifies this
      ensures Valid() && players == old(players) && round == old(round)
      ensures |players| > 0 ==> data == old(data).(index := (old(data.index) + 1) % |players|)
      ensures |players| == 0 ==> data == old(data)
    {
      if |players| == 0 {
        return;
      }
      data := data.(index := (data.index + 1) % |players|);
    }

    /** StartNewRound: with a current player, a fresh empty round for them
        with the current round number, and new checkout suggestions. */
    method StartNewRound()
      requires Valid() && !data.inCooldown
      modifies this
      ensures Valid() && players == old(players)
      ensures |players| == 0 ==> round == old(round) && data == old(data)
      ensures |players| > 0 ==>
        && fresh(round.Repr)
        && round.playerName == players[data.index].name && round.roundNumber == data.roundNumber
        && round.currentThrowIndex == 0 && round.Slots() == [EmptySlot, EmptySlot, EmptySlot]
        && data == old(data).(checkouts := Suggestions(data.mode, true, CurrentScore(), 0))
    {
      if |players| > 0 {
        round := new Round(players[data.index].name, data.roundNumber);
        UpdateCheckoutCombinations();
      }
    }

    /** UpdateCheckoutCombinations: the suggestions for the current player's
        score minus the points of this round so far. */
    method UpdateCheckoutCombinations()
      requires Valid()
      modifies this
      ensures Valid() && players == old(players) && round == old(round)
      ensures data == old(data).(checkouts := Suggestions(data.mode, |players| > 0, CurrentScore(), Total(round.Slots())))
    {
      var currentScore := if |players| > 0 then players[data.index].score else 0;
      var roundPoints := round.TotalPoints();
      var suggestions := CheckoutsFor(data.mode, |players| > 0, currentScore, roundPoints);
      data := data.(checkouts := suggestions);
    }

    /** The branches of UpdateCheckoutCombinations: no list outside X01,
        without a current player or with nothing left to score; otherwise
        the first five combinations of the calculator. */
    static method CheckoutsFor(mode: GameMode, hasPlayer: bool, currentScore: int, roundPoints: int)
      returns (r: seq<Combination>)
      ensures r == Suggestions(mode, hasPlayer, currentScore, roundPoints)
    {
      if mode != X01 || !hasPlayer {
        return [];
      }
      var remainingScore := currentScore - roundPoints;
      if remainingScore <= 0 {
        return [];
      }
      var combinations := CheckoutCalculator.GetCheckoutCombinations(remainingScore);
      r := if |combinations| <= 5 then combinations else combinations[..5];
    }

    /** The current player, as a frame: the only player object a dart changes. */
    function Thrower(): set<object>
      reads this
    {
      if 0 <= data.index < |players| then {players[data.index]} else {}
    }

    /** AddThrow: refused on a complete round, during a cooldown or without a
        current player; otherwise the round takes the pair, and an accepted
        dart is recorded, refreshes the X01 suggestions and, when it
        completes the round, scores it and starts the cooldown. */
    method AddThrow(number: int, marks: int) returns (ok: bool)
      requires Valid()
      modifies this, round.Repr, Thrower()
      ensures Valid() && players == old(players) && round == old(round)
      ensures ok ==> old(!round.IsComplete() && !data.inCooldown && |players| > 0) && IsValidThrow(number, marks)
      ensures old(round.IsComplete() || data.inCooldown || |players| == 0) ==>
        !ok && data == old(data) && round.Slots() == old(round.Slots()) && round.currentThrowIndex == old(round.currentThrowIndex)
      ensures old(!round.IsComplete() && !data.inCooldown && |players| > 0) ==>
        && (ok <==> IsValidThrow(number, marks))
        && round.Slots() == old(round.Slots())[old(round.currentThrowIndex) := Slot(number, marks, ok)]
        && round.currentThrowIndex == old(round.currentThrowIndex) + (if ok then 1 else 0)
      ensures !ok ==> data == old(data) && (|players| > 0 ==> players[data.index].State() == old(players[data.index].State()))
      ensures ok ==> ((players[data.index].State(), data) ==
        AfterDart(old(players[data.index].State()), old(CurrentBoard()), old(data), NamesOf(players),
                  round.Slots(), round.IsComplete(), number, marks))
    {
      ok := OfferToRound(number, marks);
      if ok {
        AcceptDart(number, marks);
      }
    }

    /** The first half of AddThrow: the refusals, then the round's own
        AddThrow. */
    method OfferToRound(number: int, marks: int) returns (ok: bool)
      requires Valid()
      modifies round.Repr
      ensures Valid() && round.Repr == old(round.Repr)
      ensures ok ==> old(!round.IsComplete() && !data.inCooldown && |players| > 0) && IsValidThrow(number, marks)
      ensures old(round.IsComplete() || data.inCooldown || |players| == 0) ==>
        !ok && round.Slots() == old(round.Slots()) && round.currentThrowIndex == old(round.currentThrowIndex)
      ensures old(!round.IsComplete() && !data.inCooldown && |players| > 0) ==>
        && (ok <==> IsValidThrow(number, marks))
        && round.Slots() == old(round.Slots())[old(round.currentThrowIndex) := Slot(number, marks, ok)]
        && round.currentThrowIndex == old(round.currentThrowIndex) + (if ok then 1 else 0)
    {
      if round.IsComplete() || data.inCooldown || |players| == 0 {
        return false;
      }
      // GetPlayerCricketScores(CurrentPlayer.Name) finds the thrower's board already in place.
      ok := round.AddThrow(number, marks);
    }

    /** The branch of AddThrow for a dart the round accepted. */
    method AcceptDart(number: int, marks: int)
      requires Valid() && |players| > 0 && !data.inCooldown
      modifies this, Thrower()
      ensures Valid() && players == old(players) && round == old(round)
      ensures (players[data.index].State(), data) ==
        AfterDart(old(players[data.index].State()), old(CurrentBoard()), old(data), NamesOf(players),
                  round.Slots(), round.IsComplete(), number, marks)
    {
      RecordThrowStats(number, marks);
      FinishDart();
    }

    /** The rest of AddThrow after the statistics: the X01 suggestions, then
        the round scored and the cooldown started when the round is complete. */
    method FinishDart()
      requires Valid() && |players| > 0 && !data.inCooldown
      modifies this, Thrower()
      ensures Valid() && players == old(players) && round == old(round)
      ensures var d1 := WithSuggestions(old(data), old(players[data.index].score), round.Slots());
        (players[data.index].State(), data) ==
          if round.IsComplete() then RoundEnd(old(players[data.index].State()), old(CurrentBoard()), d1, NamesOf(players), round.Slots())
          else (old(players[data.index].State()), d1)
    {
      if data.mode == X01 {
        UpdateCheckoutCombinations();
      }
      if round.IsComplete() {
        EndRound();
      }
    }

    /** ProcessRoundScore followed by StartCooldown. */
    method EndRound()
      requires Valid() && |players| > 0 && !data.inCooldown && round.IsComplete()
      modifies this, Thrower()
      ensures Valid() && players == old(players) && round == old(round)
      ensures (players[data.index].State(), data) ==
        RoundEnd(old(players[data.index].State()), old(CurrentBoard()), old(data), NamesOf(players), round.Slots())
    {
      ProcessRoundScore();
      StartCooldown();
    }

    /** RecordThrowStats: the thrower's throw count, points and, in Cricket,
        credited marks, as DartStats says; an inner bull counts as two marks
        on 25. */
    method RecordThrowStats(number: int, marks: int)
      requires Valid()
      modifies Thrower()
      ensures Valid()
      ensures |players| > 0 ==> (players[data.index].State() ==
        DartStats(old(players[data.index].State()), data.mode, NamesOf(players), data.scores, data.closed, number, marks))
      decreases if number == 50 then 1 else 0
    {
      if |players| == 0 {
        return;
      }
      if number == 50 {
        RecordThrowStats(25, 2);
        return;
      }
      // CalculateThrowPoints
      var points := ThrowPoints(data.mode, NamesOf(players), data.scores, data.closed, CurrentName(), number, marks);
      CountDart(points);
      if data.mode == Cricket && number in CRICKET_NUMBERS {
        RecordCricketMarks(number, marks);
      }
    }

    /** The thrower's own AddThrow. */
    method CountDart(points: int)
      requires Valid() && |players| > 0
      modifies Thrower()
      ensures Valid()
      ensures players[data.index].State() == old(players[data.index].State()).(
        totalThrows := old(players[data.index].totalThrows) + 1,
        totalPoints := old(players[data.index].totalPoints) + points)
    {
      players[data.index].AddThrow(points);
    }

    /** The Cricket block of RecordThrowStats: the marks credited toward the
        mark average (CreditedMarks) go to the thrower. */
    method RecordCricketMarks(number: int, marks: int)
      requires Valid() && |players| > 0 && number in CRICKET_NUMBERS
      modifies Thrower()
      ensures Valid()
      ensures players[data.index].State() == old(players[data.index].State()).(totalCricketMarks :=
        old(players[data.index].totalCricketMarks) +
        CreditedMarks(MarkOf(data.scores, players[data.index].name, number), marks,
                      AllOthersClosed(NamesOf(players), data.scores, players[data.index].name, number)))
    {
      var player := players[data.index];
      assert WellFormed(data.scores[player.name], data.closed[player.name]);
      var previousMarks := data.scores[player.name][number];
      var marksNeededToClose := 3 - previousMarks;
      var allOthersClosed := AllOthersClosed(NamesOf(players), data.scores, player.name, number);
      var effective := if allOthersClosed && marks > marksNeededToClose then marksNeededToClose else marks;
      player.AddCricketMarks(effective);
    }

    /** ProcessRoundScore: the X01 commit or the Cricket darts, by mode. */
    method ProcessRoundScore()
      requires Valid()
      modifies this, Thrower()
      ensures Valid() && players == old(players) && round == old(round)
      ensures data.mode == X01 ==> data == old(data) && (|players| > 0 ==>
        players[data.index].State() == old(players[data.index].State()).(score := X01Commit(old(players[data.index].score), Total(round.Slots()))))
      ensures data.mode == Cricket && |players| == 0 ==> data == old(data)
      ensures data.mode == Cricket && |players| > 0 ==>
        var name := players[data.index].name;
        var b := CricketRound(old(CurrentBoard()), round.Slots(), OthersClosed(NamesOf(players), old(data.scores), name));
        && data == old(data).(scores := old(data.scores)[name := b.counts], closed := old(data.closed)[name := b.closed])
        && players[data.index].State() == old(players[data.index].State()).(score := b.score)
    {
      if data.mode == X01 {
        ProcessX01RoundScore();
      } else {
        ProcessCricketRoundScore();
      }
    }

    /** ProcessX01RoundScore: the round total comes off the thrower's score
        unless that would go below zero (a bust). */
    method ProcessX01RoundScore()
      requires Valid()
      modifies Thrower()
      ensures Valid()
      ensures |players| > 0 ==> (players[data.index].State() ==
        old(players[data.index].State()).(score := X01Commit(old(players[data.index].score), Total(round.Slots()))))
    {
      var roundPoints := round.TotalPoints();
      if |players| > 0 {
        var player := players[data.index];
        if player.score - roundPoints < 0 {
          return;
        }
        player.score := player.score - roundPoints;
      }
    }

    /** ProcessCricketRoundScore: the round's darts applied in slot order to
        the thrower's board and score (CricketRound). */
    method ProcessCricketRoundScore()
      requires Valid()
      modifies this, Thrower()
      ensures Valid() && players == old(players) && round == old(round)
      ensures |players| == 0 ==> data == old(data)
      ensures |players| > 0 ==>
        var name := players[data.index].name;
        var b := CricketRound(old(CurrentBoard()), round.Slots(), OthersClosed(NamesOf(players), old(data.scores), name));
        && data == old(data).(scores := old(data.scores)[name := b.counts], closed := old(data.closed)[name := b.closed])
        && players[data.index].State() == old(players[data.index].State()).(score := b.score)
    {
      if |players| == 0 {
        return;
      }
      var board := RoundBoard();
      WriteBoard(board);
    }

    /** The thrower's new board, closed set and score written back. */
    method WriteBoard(board: Board)
      requires Valid() && |players| > 0 && WellFormed(board.counts, board.closed)
      modifies this, Thrower()
      ensures Valid() && players == old(players) && round == old(round)
      ensures var name := players[data.index].name;
        && data == old(data).(scores := old(data.scores)[name := board.counts], closed := old(data.closed)[name := board.closed])
        && players[data.index].State() == old(players[data.index].State()).(score := board.score)
    {
      var player := players[data.index];
      ConsistentBoard(NamesOf(players), data, round.IsComplete(), player.name, board.counts, board.closed);
      player.score, data := board.score,
        data.(scores := data.scores[player.name := board.counts], closed := data.closed[player.name := board.closed]);
    }

    /** The thrower's board after the round's darts, which stays well formed. */
    method RoundBoard() returns (board: Board)
      requires Valid() && |players| > 0
      ensures board == CricketRound(CurrentBoard(), round.Slots(),
                                    OthersClosed(NamesOf(players), data.scores, players[data.index].name))
      ensures WellFormed(board.counts, board.closed)
    {
      var name := players[data.index].name;
      ghost var board0 := CurrentBoard();
      RoundSlotsValid(round);
      CricketRoundMonotone(board0, round.Slots(), OthersClosed(NamesOf(players), data.scores, name));
      board := ScoreThrows(round, Board(data.scores[name], data.closed[name], players[data.index].score),
                           NamesOf(players), data.scores, name);
    }

    /** The foreach of ProcessCricketRoundScore: every valid throw on a
        cricket number goes through ProcessCricketScore, in slot order.  The
        opponents' boards are read from the map as it was before the round,
        which the thrower's darts do not change. */
    static method ScoreThrows(round: Round, board0: Board, names: seq<string>, scores: map<string, Counts>, name: string)
      returns (board: Board)
      requires round.Valid() && board0.counts.Keys == CRICKET_NUMBERS
      ensures board == CricketRound(board0, round.Slots(), OthersClosed(names, scores, name))
    {
      board := board0;
      ghost var slots := round.Slots();
      ghost var others := OthersClosed(names, scores, name);
      for i := 0 to 3
        invariant board == CricketRound(board0, slots[..i], others)
      {
        assert slots[..i + 1][..i] == slots[..i];
        var t := round.throws[i];
        if t.isValid && t.number in CRICKET_NUMBERS {
          var counted;
          board, counted := ProcessCricketScore(board, t.number, t.marks, names, scores, name);
        }
      }
      assert slots[..3] == slots;
    }

    /** ProcessCricketScore for one dart: an inner bull is scored as two
        marks on 25, a number outside the cricket numbers is refused, and a
        cricket number is scored as CricketDart says. */
    static method ProcessCricketScore(board: Board, number: int, marks: int,
                                      names: seq<string>, scores: map<string, Counts>, name: string)
      returns (r: Board, counted: bool)
      requires board.counts.Keys == CRICKET_NUMBERS
      ensures counted <==> number in CRICKET_NUMBERS || number == 50
      ensures number == 50 ==> r == CricketDart(board, 25, 2, AllOthersClosed(names, scores, name, 25))
      ensures number in CRICKET_NUMBERS ==> r == CricketDart(board, number, marks, AllOthersClosed(names, scores, name, number))
      ensures !counted ==> r == board
      decreases if number == 50 then 1 else 0
    {
      if number == 50 {
        r, counted := ProcessCricketScore(board, 25, 2, names, scores, name);
        return;
      }
      if number !in CRICKET_NUMBERS {
        return board, false;
      }
      var allOthersClosed := AllOthersClosed(names, scores, name, number);
      var previousMarks := board.counts[number];
      var marksNeededToClose := 3 - previousMarks;
      var effectiveMarks := Min(marks, marksNeededToClose);
      var overmarks := Max(0, marks - marksNeededToClose);
      var counts := board.counts[number := Min(board.counts[number] + effectiveMarks, 3)];
      var justClosed := previousMarks < 3 && counts[number] == 3;
      var closed := board.closed;
      if justClosed && number in CLOSABLE_NUMBERS {
        closed := closed + {number};
      }
      var score := board.score;
      if number in closed && !justClosed && !allOthersClosed {
        score := score + NumberValue(number) * effectiveMarks;
      }
      if overmarks > 0 && !allOthersClosed {
        score := score + NumberValue(number) * overmarks;
      }
      return Board(counts, closed, score), true;
    }

    /** StartCooldown: the cooldown starts at 5 seconds. */
    method StartCooldown()
      requires Valid() && |players| > 0 && round.IsComplete()
      modifies this
      ensures Valid() && players == old(players) && round == old(round)
      ensures data == old(data).(inCooldown := true, cooldownSeconds := 5)
    {
      data := data.(inCooldown := true, cooldownSeconds := 5);
    }

    /** OnCooldownTick, one tick of the one-second timer: a second less, and
        at zero the cooldown ends and the round is completed. */
    method Tick()
      requires Valid() && data.inCooldown
      modifies this, Thrower()
      ensures Valid() && players == old(players)
      ensures old(data.cooldownSeconds) > 1 ==>
        && data == old(data).(cooldownSeconds := old(data.cooldownSeconds) - 1)
        && round == old(round) && players[data.index].State() == old(players[data.index].State())
      ensures old(data.cooldownSeconds) == 1 ==>
        && players[old(data.index)].State() == old(players[data.index].State()).(totalRounds := old(players[data.index].totalRounds) + 1)
        && data == old(data).(index := (old(data.index) + 1) % |players|, roundNumber := old(data.roundNumber) + 1,
                              inCooldown := false, cooldownSeconds := 0,
                              checkouts := Suggestions(data.mode, true, CurrentScore(), 0))
        && fresh(round.Repr) && round.playerName == players[data.index].name && round.roundNumber == data.roundNumber
        && round.Slots() == [EmptySlot, EmptySlot, EmptySlot]
    {
      var seconds := data.cooldownSeconds - 1;
      if seconds <= 0 {
        data := data.(cooldownSeconds := seconds, inCooldown := false);
        CompleteRound();
      } else {
        data := data.(cooldownSeconds := seconds);
      }
    }

    /** CompleteRound: the thrower has one more completed round, the turn
        passes on, the round number grows and a new round starts. */
    method CompleteRound()
      requires Valid() && !data.inCooldown
      modifies this, Thrower()
      ensures Valid() && players == old(players)
      ensures |players| == 0 ==> data == old(data).(roundNumber := old(data.roundNumber) + 1) && round == old(round)
      ensures |players| > 0 ==>
        && players[old(data.index)].State() == old(players[data.index].State()).(totalRounds := old(players[data.index].totalRounds) + 1)
        && data == old(data).(index := (old(data.index) + 1) % |players|, roundNumber := old(data.roundNumber) + 1,
                              checkouts := Suggestions(data.mode, true, CurrentScore(), 0))
        && fresh(round.Repr) && round.playerName == players[data.index].name && round.roundNumber == data.roundNumber
        && round.Slots() == [EmptySlot, EmptySlot, EmptySlot]
    {
      NextTurn();
      StartNewRound();
    }

    /** The first half of CompleteRound: the thrower's CompleteRound, then
        SwitchPlayer and the next round number. */
    method NextTurn()
      requires Valid()
      modifies this, Thrower()
      ensures Valid() && players == old(players) && round == old(round)
      ensures |players| > 0 ==> (players[old(data.index)].State() ==
        old(players[data.index].State()).(totalRounds := old(players[data.index].totalRounds) + 1))
      ensures data == old(data).(index := if |players| > 0 then (old(data.index) + 1) % |players| else old(data.index),
                                 roundNumber := old(data.roundNumber) + 1)
    {
      if |players| > 0 {
        players[data.index].CompleteRound();
      }
      SwitchPlayer();
      data := data.(roundNumber := data.roundNumber + 1);
    }

    /** UndoLastThrow: only while the round is open and no cooldown runs; the
        round steps back one dart and X01 gets new suggestions. */
    method UndoLastThrow()
      requires Valid()
      modifies this, round.Repr
      ensures Valid() && players == old(players) && round == old(round)
      ensures old(round.IsComplete() || data.inCooldown) ==>
        data == old(data) && round.Slots() == old(round.Slots()) && round.currentThrowIndex == old(round.currentThrowIndex)
      ensures old(!round.IsComplete() && !data.inCooldown) ==>
        && (old(round.currentThrowIndex) == 0 ==> round.currentThrowIndex == 0 && round.Slots() == old(round.Slots()))
        && (old(round.currentThrowIndex) > 0 ==>
              round.currentThrowIndex == old(round.currentThrowIndex) - 1
              && round.Slots() == old(round.Slots())[round.currentThrowIndex := EmptySlot])
        && data == if data.mode == X01
                   then old(data).(checkouts := Suggestions(X01, |players| > 0, CurrentScore(), Total(round.Slots())))
                   else old(data)
    {
      if !round.IsComplete() && !data.inCooldown {
        round.UndoLastThrow();
        if data.mode == X01 {
          UpdateCheckoutCombinations();
        }
      }
    }

    /** CheckWinner: in X01 the first player on 0; in Cricket the best score
        among the players who closed every number.  A winner's leg is
        recorded for the whole roster. */
    method CheckWinner() returns (won: bool, winner: Option<string>)
      requires Valid()
      modifies players
      ensures Valid()
      ensures var w := if data.mode == X01 then X01Winner(old(RosterOf(players)))
                       else CricketWinner(old(RosterOf(players)), data.scores, |players|);
        && (won <==> w.Some?)
        && (w.None? ==> winner.None? && RosterOf(players) == old(RosterOf(players)))
        && (w.Some? ==> winner == Some(players[w.value].name)
                        && RosterOf(players) == LegResults(old(RosterOf(players)), w.value))
    {
      // The Cricket query reads each board through GetPlayerCricketScores,
      // which finds every roster name already in place.
      var w := if data.mode == X01 then X01Winner(RosterOf(players))
               else CricketWinner(RosterOf(players), data.scores, |players|);
      if w.None? {
        return false, None;
      }
      DistinctPlayers(players);
      RecordGameResults(players, w.value);
      return true, Some(players[w.value].name);
    }

    /** RecordGameResults: a won leg for the winner and a lost one for every
        other player of the roster. */
    static method RecordGameResults(ps: seq<Player>, w: nat)
      requires w < |ps| && PlayersValid(ps)
      requires forall i, j :: 0 <= i < j < |ps| ==> ps[i] != ps[j]
      modifies ps
      ensures PlayersValid(ps)
      ensures RosterOf(ps) == LegResults(old(RosterOf(ps)), w)
    {
      ghost var before := RosterOf(ps);
      ghost var after := LegResults(before, w);
      ps[w].RecordLegWin();
      for i := 0 to |ps|
        invariant PlayersValid(ps)
        invariant forall j :: 0 <= j < |ps| ==> ps[j].State() == if j < i || j == w then after[j] else before[j]
      {
        if ps[i] != ps[w] {
          ps[i].RecordLegLoss();
        }
      }
      assert forall j :: 0 <= j < |ps| ==> RosterOf(ps)[j] == after[j];
    }

    /** ResetGame: every player back to the mode's start score, fresh boards
        in Cricket, no suggestions, no cooldown, and round 1 for the first
        player. */
    method ResetGame()
      requires Valid()
      modifies this, players
      ensures Valid() && players == old(players)
      ensures RosterOf(players) == ResetScores(old(RosterOf(players)), StartScore(data.mode))
      ensures data.mode == Cricket ==>
        Refreshed(NamesOf(players), old(data.scores), old(data.closed), data.scores, data.closed)
      ensures data == old(data).(index := 0, roundNumber := 1, inCooldown := false, cooldownSeconds := 0,
                                 scores := data.scores, closed := data.closed,
                                 checkouts := Suggestions(data.mode, |players| > 0, StartScore(data.mode), 0))
      ensures data.mode == X01 ==> data.scores == old(data.scores) && data.closed == old(data.closed)
      ensures |players| == 0 ==> round == old(round)
      ensures |players| > 0 ==>
        && fresh(round.Repr) && round.playerName == players[0].name && round.roundNumber == 1
        && round.Slots() == [EmptySlot, EmptySlot, EmptySlot]
    {
      ResetPlayers();
      assert |players| > 0 ==> players[0].score == StartScore(data.mode) by {
        if |players| > 0 {
          assert RosterOf(players)[0] == players[0].State();
        }
      }
      RestartTurns();
      StartNewRound();
    }

    /** The field resets of ResetGame: no suggestions, no cooldown, the first
        player to throw and round 1. */
    method RestartTurns()
      requires Valid()
      modifies this
      ensures Valid() && players == old(players) && round == old(round)
      ensures data == old(data).(checkouts := [], inCooldown := false, cooldownSeconds := 0, index := 0, roundNumber := 1)
    {
      data := data.(checkouts := [], inCooldown := false, cooldownSeconds := 0, index := 0, roundNumber := 1);
    }

    /** The first half of ResetGame: the scores set by mode, and in Cricket
        InitializeCricketScores. */
    method ResetPlayers()
      requires Valid()
      modifies this, players
      ensures Valid() && players == old(players) && round == old(round)
      ensures RosterOf(players) == ResetScores(old(RosterOf(players)), StartScore(data.mode))
      ensures data.mode == Cricket ==>
        Refreshed(NamesOf(players), old(data.scores), old(data.closed), data.scores, data.closed)
      ensures data == old(data).(scores := data.scores, closed := data.closed)
      ensures data.mode == X01 ==> data == old(data)
    {
      DistinctPlayers(players);
      if data.mode == X01 {
        SetScores(players, 501);
      } else {
        SetScores(players, 0);
        InitializeCricketScores();
      }
    }

    /** The foreach of ResetGame that sets every player's score. */
    static method SetScores(ps: seq<Player>, score: int)
      requires PlayersValid(ps)
      requires forall i, j :: 0 <= i < j < |ps| ==> ps[i] != ps[j]
      modifies ps
      ensures PlayersValid(ps)
      ensures RosterOf(ps) == ResetScores(old(RosterOf(ps)), score)
    {
      ghost var before := RosterOf(ps);
      for i := 0 to |ps|
        invariant PlayersValid(ps)
        invariant forall j :: 0 <= j < |ps| ==> ps[j].State() == if j < i then before[j].(score := score) else before[j]
      {
        ps[i].score := score;
      }
      assert forall j :: 0 <= j < |ps| ==> RosterOf(ps)[j] == before[j].(score := score);
    }

    /** The GameMode setter: a different mode is stored and resets the game. */
    method SetGameMode(mode: GameMode)
      requires Valid()
      modifies this, players
      ensures Valid() && players == old(players) && data.mode == mode
      ensures mode == old(data.mode) ==>
        data == old(data) && round == old(round) && RosterOf(players) == old(RosterOf(players))
      ensures mode != old(data.mode) ==>
        && RosterOf(players) == ResetScores(old(RosterOf(players)), StartScore(mode))
        && data.index == 0 && data.roundNumber == 1 && !data.inCooldown
        && data.checkouts == Suggestions(mode, |players| > 0, StartScore(mode), 0)
        && (mode == Cricket ==> Refreshed(NamesOf(players), old(data.scores), old(data.closed), data.scores, data.closed))
        && (mode == X01 ==> data.scores == old(data.scores) && data.closed == old(data.closed))
        && (|players| == 0 ==> round == old(round))
        && (|players| > 0 ==>
              && fresh(round.Repr) && round.playerName == players[0].name && round.roundNumber == 1
              && round.Slots() == [EmptySlot, EmptySlot, EmptySlot])
    {
      if data.mode != mode {
        data := data.(mode := mode);
        ResetGame();
      }
    }
  }
}
