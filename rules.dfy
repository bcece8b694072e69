/**
 * The pure decisions DartsGame takes over its roster: the X01 commit with
 * the bust rule, the turn index after a removal, winner detection in both
 * modes, and the checkout suggestions shown during an X01 round.
 */
module GameRules {
  import opened Wrappers
  import opened Modes
  import opened Players
  import opened Cricket
  import opened CheckoutSpec

  /** ProcessX01RoundScore: the round total comes off the score unless that
      would take the score below zero (a bust), in which case it stays. */
  function X01Commit(score: int, roundTotal: int): (r: int)
    ensures score - roundTotal >= 0 ==> r == score - roundTotal
    ensures score - roundTotal < 0 ==> r == score
    ensures score >= 0 ==> r >= 0
    ensures roundTotal >= 0 ==> r <= score
    ensures score > 0 ==> (r == 0 <==> roundTotal == score)
  {
    if score - roundTotal < 0 then score else score - roundTotal
  }

  /** The names of the roster, in roster order. */
  function Names(roster: seq<PlayerState>): (ns: seq<string>)
    ensures |ns| == |roster| && forall i :: 0 <= i < |roster| ==> ns[i] == roster[i].name
  {
    seq(|roster|, i requires 0 <= i < |roster| => roster[i].name)
  }

  /** No two players share a name (AddPlayer refuses duplicates). */
  predicate DistinctNames(roster: seq<PlayerState>) {
    forall i, j :: 0 <= i < j < |roster| ==> roster[i].name != roster[j].name
  }

  /** The position of the first occurrence of a name (FirstOrDefault / IndexOf). */
  function IndexOfName(names: seq<string>, name: string): (r: Option<nat>)
    ensures r.Some? ==> (r.value < |names| && names[r.value] == name
      && forall j :: 0 <= j < r.value ==> names[j] != name)
    ensures r.None? <==> name !in names
    decreases |names|
  {
    if names == [] then None
    else if names[0] == name then Some(0)
    else match IndexOfName(names[1..], name)
      case None => None
      case Some(k) => Some(k + 1)
  }

  /** The sequence without its k-th element. */
  function RemoveAt<T>(s: seq<T>, k: nat): (r: seq<T>)
    requires k < |s|
    ensures |r| == |s| - 1
    ensures forall i :: 0 <= i < k ==> r[i] == s[i]
    ensures forall i :: k <= i < |r| ==> r[i] == s[i + 1]
  {
    s[..k] + s[k + 1..]
  }

  /** RemovePlayer's index adjustment: back to 0 when the index falls off the
      shortened roster, one down when a player before the current one left. */
  function IndexAfterRemove(index: int, removed: int, newCount: int): (r: int)
    ensures 0 <= index && 0 <= removed && newCount > 0 ==> 0 <= r < newCount
    ensures index < newCount && index <= removed ==> r == index
  {
    if index >= newCount then 0
    else if index > removed then index - 1
    else index
  }

  /** The turn index stays within the shortened roster, and the player whose
      turn it was keeps it, except when that player was last in the roster. */
  lemma IndexAfterRemoveKeepsTurn<T>(s: seq<T>, index: nat, k: nat)
    requires index < |s| && k < |s| && |s| >= 2
    ensures 0 <= IndexAfterRemove(index, k, |s| - 1) < |s| - 1
    ensures k != index && index < |s| - 1 ==> RemoveAt(s, k)[IndexAfterRemove(index, k, |s| - 1)] == s[index]
    ensures k == index && index < |s| - 1 ==> RemoveAt(s, k)[IndexAfterRemove(index, k, |s| - 1)] == s[index + 1]
  {
  }

  /** The turn jumps back to the first player when the current player was
      last and someone before them leaves: with A, B, C and C to throw,
      removing A gives B the turn instead of C. */
  lemma RemoveBeforeLastPlayerQuirk()
    ensures IndexAfterRemove(2, 0, 2) == 0
    ensures RemoveAt(["A", "B", "C"], 0)[IndexAfterRemove(2, 0, 2)] == "B"
  {
    assert RemoveAt(["A", "B", "C"], 0) == ["B", "C"];
  }

  /** The X01 winner: the first player in roster order whose score is 0. */
  function X01Winner(roster: seq<PlayerState>): (w: Option<nat>)
    ensures w.Some? ==> (w.value < |roster| && roster[w.value].score == 0
      && forall j :: 0 <= j < w.value ==> roster[j].score != 0)
    ensures w.None? <==> forall j :: 0 <= j < |roster| ==> roster[j].score != 0
    decreases |roster|
  {
    if roster == [] then None
    else if roster[0].score == 0 then Some(0)
    else match X01Winner(roster[1..])
      case None => None
      case Some(k) => Some(k + 1)
  }

  /** The player has at least 3 marks on every closable number. */
  predicate AllClosed(board: Counts) {
    forall n :: n in CLOSABLE_NUMBERS ==> n in board && board[n] >= 3
  }

  /** The Cricket winner among the first k players: the highest score among
      those who have closed every number, the earliest of them on a tie (the
      first element of a stable descending sort). */
  function CricketWinner(roster: seq<PlayerState>, marks: map<string, Counts>, k: nat): (w: Option<nat>)
    requires k <= |roster|
    ensures w.Some? ==> w.value < k && AllClosed(BoardOf(marks, roster[w.value].name))
    ensures w.Some? ==> forall j :: 0 <= j < k && AllClosed(BoardOf(marks, roster[j].name)) ==>
      roster[j].score <= roster[w.value].score
    ensures w.Some? ==> forall j :: 0 <= j < w.value && AllClosed(BoardOf(marks, roster[j].name)) ==>
      roster[j].score < roster[w.value].score
    ensures w.None? <==> forall j :: 0 <= j < k ==> !AllClosed(BoardOf(marks, roster[j].name))
    decreases k
  {
    if k == 0 then None
    else
      var best := CricketWinner(roster, marks, k - 1);
      if !AllClosed(BoardOf(marks, roster[k - 1].name)) then best
      else if best.None? || roster[k - 1].score > roster[best.value].score then Some(k - 1)
      else best
  }

  /** The checkout suggestions of UpdateCheckoutCombinations: nothing outside
      X01 or without a player, nothing when the score left after the darts
      of this round is not positive, otherwise the first five combinations. */
  function Suggestions(mode: GameMode, hasPlayer: bool, score: int, roundTotal: int): (r: seq<Combination>)
    ensures |r| <= 5
    ensures mode != X01 || !hasPlayer || score <= roundTotal ==> r == []
  {
    if mode != X01 || !hasPlayer then []
    else
      var remaining := score - roundTotal;
      if remaining <= 0 then []
      else
        var all := RenderAll(Checkouts(remaining));
        if |all| <= 5 then all else all[..5]
  }

  /** Some sequence of at most three darts checks the score out. */
  ghost predicate Finishable(remaining: int) {
    1 <= remaining <= MAX_CHECKOUT && exists x :: IsCheckout(remaining, x)
  }

  /** At most five suggestions, each finishing exactly the score left, and
      some suggestion exists exactly when that score can be checked out. */
  lemma SuggestionsMeaning(mode: GameMode, hasPlayer: bool, score: int, roundTotal: int)
    ensures var s := Suggestions(mode, hasPlayer, score, roundTotal);
      && |s| <= 5
      && (forall t :: 0 <= t < |s| ==> s[t].totalPoints == score - roundTotal && s[t].isPossible)
      && (|s| > 0 <==> mode == X01 && hasPlayer && Finishable(score - roundTotal))
  {
    var remaining := score - roundTotal;
    if mode == X01 && hasPlayer && remaining > 0 {
      RenderedPoints(remaining);
      CheckoutsNonEmpty(remaining);
    }
  }

  /** RecordThrowStats for one dart of the current player: one more throw,
      the CalculateThrowPoints points, and in Cricket the credited marks of a
      cricket number; an inner bull is recorded as two marks on 25. */
  function DartStats(s: PlayerState, mode: GameMode, names: seq<string>, scores: map<string, Counts>,
                     closed: map<string, set<int>>, number: int, marks: int): (r: PlayerState)
    ensures r.totalThrows == s.totalThrows + 1
    ensures r.(totalThrows := s.totalThrows, totalPoints := s.totalPoints, totalCricketMarks := s.totalCricketMarks) == s
  {
    var d := StatsDart(number, marks);
    var points := ThrowPoints(mode, names, scores, closed, Some(s.name), d.0, d.1);
    var credit :=
      if mode == Cricket && d.0 in CRICKET_NUMBERS
      then CreditedMarks(MarkOf(scores, s.name, d.0), d.1, AllOthersClosed(names, scores, s.name, d.0))
      else 0;
    s.(totalThrows := s.totalThrows + 1, totalPoints := s.totalPoints + points,
       totalCricketMarks := s.totalCricketMarks + credit)
  }

  /** One dart adds exactly one throw and changes neither the score nor the
      legs and rounds; in X01 it adds the face value, with an inner bull
      always counted as 50 whatever its marks. */
  lemma DartStatsMeaning(s: PlayerState, mode: GameMode, names: seq<string>, scores: map<string, Counts>,
                         closed: map<string, set<int>>, number: int, marks: int)
    ensures var r := DartStats(s, mode, names, scores, closed, number, marks);
      && r.totalThrows == s.totalThrows + 1
      && r.name == s.name && r.score == s.score && r.userId == s.userId
      && r.totalRounds == s.totalRounds && r.legsWon == s.legsWon && r.legsPlayed == s.legsPlayed
      && (mode == X01 ==> r.totalCricketMarks == s.totalCricketMarks)
      && (mode == X01 && number != 50 ==> r.totalPoints == s.totalPoints + number * marks)
      && (mode == X01 && number == 50 ==> r.totalPoints == s.totalPoints + 50)
  {
  }

  /** RecordGameResults: the winner gets a won and played leg, every other
      player a played leg. */
  function LegResults(roster: seq<PlayerState>, w: nat): (r: seq<PlayerState>)
    requires w < |roster|
    ensures |r| == |roster|
  {
    seq(|roster|, i requires 0 <= i < |roster| =>
      if i == w then roster[i].(legsWon := roster[i].legsWon + 1, legsPlayed := roster[i].legsPlayed + 1)
      else roster[i].(legsPlayed := roster[i].legsPlayed + 1))
  }

  function TotalLegsWon(roster: seq<PlayerState>): int
    decreases |roster|
  {
    if roster == [] then 0 else TotalLegsWon(roster[..|roster| - 1]) + roster[|roster| - 1].legsWon
  }

  function TotalLegsPlayed(roster: seq<PlayerState>): int
    decreases |roster|
  {
    if roster == [] then 0 else TotalLegsPlayed(roster[..|roster| - 1]) + roster[|roster| - 1].legsPlayed
  }

  /** Recording a result credits exactly one won leg in the whole roster and
      one played leg per player, and changes nothing but the leg counters. */
  lemma {:induction false} LegResultsOneWinner(roster: seq<PlayerState>, w: nat)
    requires w < |roster|
    ensures TotalLegsWon(LegResults(roster, w)) == TotalLegsWon(roster) + 1
    ensures TotalLegsPlayed(LegResults(roster, w)) == TotalLegsPlayed(roster) + |roster|
    decreases |roster|
  {
    var r := LegResults(roster, w);
    var n := |roster| - 1;
    if w < n {
      LegResultsOneWinner(roster[..n], w);
      assert LegResults(roster[..n], w) == r[..n];
    } else {
      LegsAllLost(roster[..n]);
      assert LegResults(roster, w)[..n] == AllLost(roster[..n]);
    }
  }

  /** Every player of the roster with one more played leg. */
  function AllLost(roster: seq<PlayerState>): (r: seq<PlayerState>)
    ensures |r| == |roster|
  {
    seq(|roster|, i requires 0 <= i < |roster| => roster[i].(legsPlayed := roster[i].legsPlayed + 1))
  }

  lemma {:induction false} LegsAllLost(roster: seq<PlayerState>)
    ensures TotalLegsWon(AllLost(roster)) == TotalLegsWon(roster)
    ensures TotalLegsPlayed(AllLost(roster)) == TotalLegsPlayed(roster) + |roster|
    decreases |roster|
  {
    if roster != [] {
      var n := |roster| - 1;
      LegsAllLost(roster[..n]);
      assert AllLost(roster)[..n] == AllLost(roster[..n]);
    }
  }

  /** ResetGame's scores: every player back to the given start score. */
  function ResetScores(roster: seq<PlayerState>, start: int): (r: seq<PlayerState>)
    ensures |r| == |roster|
    ensures forall i :: 0 <= i < |roster| ==> r[i] == roster[i].(score := start)
  {
    seq(|roster|, i requires 0 <= i < |roster| => roster[i].(score := start))
  }
}
