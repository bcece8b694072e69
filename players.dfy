/**
 * A player of a leg (Player): the name and the remaining score, plus the
 * integer statistics that the game updates dart by dart, round by round and
 * leg by leg.  The derived averages are modelled as exact ratios.
 */
module Players {
  import opened Wrappers

  /** Everything a Player object holds that the engine reads or writes. */
  datatype PlayerState = PlayerState(
    name: string,
    score: int,
    userId: Option<string>,
    totalThrows: int,
    totalPoints: int,
    totalCricketMarks: int,
    totalRounds: int,
    legsWon: int,
    legsPlayed: int)

  /** A freshly constructed player: every statistic is zero. */
  function NewPlayer(name: string, score: int, userId: Option<string>): PlayerState {
    PlayerState(name, score, userId, 0, 0, 0, 0, 0, 0)
  }

  /** The statistics a player can only gain, never lose, until ResetStats. */
  predicate Grows(before: PlayerState, after: PlayerState) {
    && before.totalThrows <= after.totalThrows
    && before.totalRounds <= after.totalRounds
    && before.legsWon <= after.legsWon
    && before.legsPlayed <= after.legsPlayed
  }

  class Player {
    const name: string
    var score: int
    const userId: Option<string>
    var totalThrows: int
    var totalPoints: int
    var totalCricketMarks: int
    var totalRounds: int
    var legsWon: int
    var legsPlayed: int

    /** Counters start at zero and only go up; a leg is played whenever it is won. */
    ghost predicate Valid()
      reads this
    {
      0 <= totalThrows && 0 <= totalRounds && 0 <= legsWon <= legsPlayed
    }

    function State(): PlayerState
      reads this
    {
      PlayerState(name, score, userId, totalThrows, totalPoints, totalCricketMarks,
        totalRounds, legsWon, legsPlayed)
    }

    constructor (name: string, initialScore: int, userId: Option<string>)
      ensures Valid()
      ensures State() == NewPlayer(name, initialScore, userId)
    {
      this.name := name;
      this.score := initialScore;
      this.userId := userId;
      totalThrows := 0;
      totalPoints := 0;
      totalCricketMarks := 0;
      totalRounds := 0;
      legsWon := 0;
      legsPlayed := 0;
    }

    /** IsRegisteredUser: the player is linked to a user account with a non-empty id. */
    predicate IsRegisteredUser(): (r: bool)
      reads this
      ensures r <==> userId.Some? && |userId.value| > 0
    {
      userId.Some? && userId.value != ""
    }

    /** AddThrow: one more dart, worth the given points. */
    method AddThrow(points: int)
      requires Valid()
      modifies this
      ensures Valid() && Grows(old(State()), State())
      ensures State() == old(State()).(totalThrows := old(totalThrows) + 1,
                                       totalPoints := old(totalPoints) + points)
    {
      totalThrows := totalThrows + 1;
      totalPoints := totalPoints + points;
    }

    /** AddCricketMarks: adds the credited marks and nothing else. */
    method AddCricketMarks(marks: int)
      requires Valid()
      modifies this
      ensures Valid() && Grows(old(State()), State())
      ensures State() == old(State()).(totalCricketMarks := old(totalCricketMarks) + marks)
    {
      totalCricketMarks := totalCricketMarks + marks;
    }

    /** CompleteRound: one more finished round and nothing else. */
    method CompleteRound()
      requires Valid()
      modifies this
      ensures Valid() && Grows(old(State()), State())
      ensures State() == old(State()).(totalRounds := old(totalRounds) + 1)
    {
      totalRounds := totalRounds + 1;
    }

    /** RecordLegWin: a won leg is also a played leg. */
    method RecordLegWin()
      requires Valid()
      modifies this
      ensures Valid() && Grows(old(State()), State())
      ensures State() == old(State()).(legsWon := old(legsWon) + 1, legsPlayed := old(legsPlayed) + 1)
    {
      legsWon := legsWon + 1;
      legsPlayed := legsPlayed + 1;
    }

    /** RecordLegLoss: a played leg that was not won. */
    method RecordLegLoss()
      requires Valid()
      modifies this
      ensures Valid() && Grows(old(State()), State())
      ensures State() == old(State()).(legsPlayed := old(legsPlayed) + 1)
    {
      legsPlayed := legsPlayed + 1;
    }

    /** ResetStats: every statistic back to zero; name, score and account link stay. */
    method ResetStats()
      modifies this
      ensures Valid()
      ensures State() == NewPlayer(name, old(score), userId)
    {
      totalThrows := 0;
      totalPoints := 0;
      totalCricketMarks := 0;
      totalRounds := 0;
      legsWon := 0;
      legsPlayed := 0;
    }

    /** The leg win percentage before rounding: 0 with no legs played, otherwise
        won / played * 100, which the invariant keeps within 0..100. */
    function WinPercentage(): (r: real)
      reads this
      requires Valid()
      ensures legsPlayed == 0 ==> r == 0.0
      ensures 0.0 <= r <= 100.0
      ensures legsPlayed > 0 ==> (r == 100.0 <==> legsWon == legsPlayed)
      ensures legsPlayed > 0 ==> (r == 0.0 <==> legsWon == 0)
    {
      if legsPlayed > 0 then Ratio(legsWon, legsPlayed) else 0.0
    }
  }

  /** won / played * 100 for 0 <= won <= played, played > 0. */
  function Ratio(won: int, played: int): (r: real)
    requires 0 <= won <= played && played > 0
    ensures 0.0 <= r <= 100.0
    ensures r == 100.0 <==> won == played
    ensures r == 0.0 <==> won == 0
  {
    var q := won as real / played as real;
    QuotientBounds(won as real, played as real);
    q * 100.0
  }

  /** For 0 <= a <= b and b > 0: 0 <= a / b <= 1, with 1 exactly when a == b
      and 0 exactly when a == 0. */
  lemma QuotientBounds(a: real, b: real)
    requires 0.0 <= a <= b && b > 0.0
    ensures 0.0 <= a / b <= 1.0
    ensures a / b == 1.0 <==> a == b
    ensures a / b == 0.0 <==> a == 0.0
  {
    var q := a / b;
    assert q * b == a;
    ProductSign(1.0 - q, b);
    ProductSign(q, b);
  }

  /** The sign of x follows from the sign of x * y when y is positive. */
  lemma ProductSign(x: real, y: real)
    requires y > 0.0
    ensures x * y >= 0.0 ==> x >= 0.0
    ensures x * y == 0.0 ==> x == 0.0
  {
  }
}
