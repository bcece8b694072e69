/**
 * The long-lived statistics of a registered user (UserStatistics): games,
 * wins, throws, points, rounds and cricket marks, overall and per game mode.
 */
module Statistics {
  import opened Modes
  import Players

  /** The integer counters of a statistics record. */
  datatype Counters = Counters(
    gamesPlayed: int,
    gamesWon: int,
    throws: int,
    points: int,
    bestScore: int,
    rounds: int,
    cricketMarks: int,
    x01Played: int,
    x01Won: int,
    cricketPlayed: int,
    cricketWon: int)

  /** A new or reset record: every counter is zero. */
  predicate Cleared(c: Counters) {
    && c.gamesPlayed == 0 && c.gamesWon == 0 && c.throws == 0 && c.points == 0
    && c.bestScore == 0 && c.rounds == 0 && c.cricketMarks == 0
    && c.x01Played == 0 && c.x01Won == 0 && c.cricketPlayed == 0 && c.cricketWon == 0
  }

  /** Every game is played in exactly one mode, a win is a played game of its
      mode, and the best score starts at 0 and only rises. */
  predicate CountersValid(c: Counters) {
    && 0 <= c.x01Won <= c.x01Played
    && 0 <= c.cricketWon <= c.cricketPlayed
    && c.gamesPlayed == c.x01Played + c.cricketPlayed
    && c.gamesWon == c.x01Won + c.cricketWon
    && 0 <= c.throws
    && 0 <= c.bestScore
  }

  /** The counters after RecordGamePlayed. */
  function GameRecorded(c: Counters, gameMode: GameMode, won: bool, finalScore: int, roundsPlayed: int): Counters {
    var w := if won then 1 else 0;
    c.(gamesPlayed := c.gamesPlayed + 1,
       rounds := c.rounds + roundsPlayed,
       gamesWon := c.gamesWon + w,
       bestScore := if finalScore > c.bestScore then finalScore else c.bestScore,
       x01Played := c.x01Played + (if gameMode == X01 then 1 else 0),
       x01Won := c.x01Won + (if gameMode == X01 then w else 0),
       cricketPlayed := c.cricketPlayed + (if gameMode == Cricket then 1 else 0),
       cricketWon := c.cricketWon + (if gameMode == Cricket then w else 0))
  }

  /** The counters after RecordThrows. */
  function ThrowsRecorded(c: Counters, points: int, cricketMarks: int): Counters {
    c.(throws := c.throws + 1, points := c.points + points, cricketMarks := c.cricketMarks + cricketMarks)
  }

  /** A recorded game is one more game and at most one more win (one exactly
      when it was won), the best score becomes the larger of the old best and
      the final score, the game is counted in its own mode only, the dart
      counters do not move, and the invariant is kept. */
  lemma GameRecordedMeaning(c: Counters, gameMode: GameMode, won: bool, finalScore: int, roundsPlayed: int)
    ensures var r := GameRecorded(c, gameMode, won, finalScore, roundsPlayed);
      && r.gamesPlayed == c.gamesPlayed + 1
      && r.rounds == c.rounds + roundsPlayed
      && (r.gamesWon == c.gamesWon + 1 <==> won)
      && (r.gamesWon == c.gamesWon <==> !won)
      && r.bestScore >= c.bestScore && r.bestScore >= finalScore
      && (r.bestScore == c.bestScore || r.bestScore == finalScore)
      && (gameMode == X01 ==> r.cricketPlayed == c.cricketPlayed && r.x01Played == c.x01Played + 1)
      && (gameMode == Cricket ==> r.x01Played == c.x01Played && r.cricketPlayed == c.cricketPlayed + 1)
      && r.throws == c.throws && r.points == c.points && r.cricketMarks == c.cricketMarks
      && (CountersValid(c) ==> CountersValid(r))
  {
  }

  /** A recorded dart is one more throw with its points and marks; no game
      counter moves and the invariant is kept. */
  lemma ThrowsRecordedMeaning(c: Counters, points: int, cricketMarks: int)
    ensures var r := ThrowsRecorded(c, points, cricketMarks);
      && r.throws == c.throws + 1
      && r.points == c.points + points
      && r.cricketMarks == c.cricketMarks + cricketMarks
      && r.(throws := c.throws, points := c.points, cricketMarks := c.cricketMarks) == c
      && (CountersValid(c) ==> CountersValid(r))
  {
  }

  class UserStatistics {
    const userId: string
    var totalGamesPlayed: int
    var totalGamesWon: int
    var totalThrows: int
    var totalPoints: int
    var bestScore: int
    var totalRounds: int
    var totalCricketMarks: int
    var x01GamesPlayed: int
    var x01GamesWon: int
    var cricketGamesPlayed: int
    var cricketGamesWon: int

    /** The record's counters as a value. */
    function Counts(): Counters
      reads this
    {
      Counters(totalGamesPlayed, totalGamesWon, totalThrows, totalPoints, bestScore, totalRounds,
        totalCricketMarks, x01GamesPlayed, x01GamesWon, cricketGamesPlayed, cricketGamesWon)
    }

    ghost predicate Valid()
      reads this
    {
      CountersValid(Counts())
    }

    constructor (userId: string)
      ensures this.userId == userId && Cleared(Counts())
    {
      this.userId := userId;
      totalGamesPlayed := 0;
      totalGamesWon := 0;
      totalThrows := 0;
      totalPoints := 0;
      bestScore := 0;
      totalRounds := 0;
      totalCricketMarks := 0;
      x01GamesPlayed := 0;
      x01GamesWon := 0;
      cricketGamesPlayed := 0;
      cricketGamesWon := 0;
    }

    /** RecordGamePlayed: one more game in the given mode, won or not. */
    method RecordGamePlayed(gameMode: GameMode, won: bool, finalScore: int, roundsPlayed: int)
      modifies this
      ensures Counts() == GameRecorded(old(Counts()), gameMode, won, finalScore, roundsPlayed)
    {
      totalGamesPlayed := totalGamesPlayed + 1;
      totalRounds := totalRounds + roundsPlayed;
      if won {
        totalGamesWon := totalGamesWon + 1;
      }
      if finalScore > bestScore {
        bestScore := finalScore;
      }
      if gameMode == X01 {
        x01GamesPlayed := x01GamesPlayed + 1;
        if won {
          x01GamesWon := x01GamesWon + 1;
        }
      } else if gameMode == Cricket {
        cricketGamesPlayed := cricketGamesPlayed + 1;
        if won {
          cricketGamesWon := cricketGamesWon + 1;
        }
      }
    }

    /** RecordThrows: one more dart with its points and credited cricket marks. */
    method RecordThrows(points: int, cricketMarks: int)
      modifies this
      ensures Counts() == ThrowsRecorded(old(Counts()), points, cricketMarks)
    {
      totalThrows := totalThrows + 1;
      totalPoints := totalPoints + points;
      totalCricketMarks := totalCricketMarks + cricketMarks;
    }

    /** ResetStats: every counter back to zero. */
    method ResetStats()
      modifies this
      ensures Cleared(Counts())
    {
      totalGamesPlayed := 0;
      totalGamesWon := 0;
      totalThrows := 0;
      totalPoints := 0;
      bestScore := 0;
      totalRounds := 0;
      totalCricketMarks := 0;
      x01GamesPlayed := 0;
      x01GamesWon := 0;
      cricketGamesPlayed := 0;
      cricketGamesWon := 0;
    }

    /** The win percentage before rounding: 0 with no games, otherwise
        won / played * 100, within 0..100. */
    function WinPercentage(): (r: real)
      reads this
      requires Valid()
      ensures totalGamesPlayed == 0 ==> r == 0.0
      ensures 0.0 <= r <= 100.0
      ensures totalGamesPlayed > 0 ==> (r == 100.0 <==> totalGamesWon == totalGamesPlayed)
      ensures totalGamesPlayed > 0 ==> (r == 0.0 <==> totalGamesWon == 0)
    {
      if totalGamesPlayed > 0 then Players.Ratio(totalGamesWon, totalGamesPlayed) else 0.0
    }
  }
}
