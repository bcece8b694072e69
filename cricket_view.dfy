/**
 * The Cricket scoreboard row of one player (CricketPlayerInfo): the marks on
 * each cricket number and a text listing the numbers the player has closed,
 * both read from the game.
 */
module CricketView {
  import opened Text
  import opened Players
  import opened Cricket
  import opened Game

  const NONE_CLOSED: string := "Sin números cerrados"
  const CLOSED_PREFIX: string := "Números cerrados: "

  /** A non-empty finite set of integers has a least element. */
  lemma {:induction false} HasLeast(s: set<int>)
    requires s != {}
    ensures exists m :: m in s && forall x :: x in s ==> m <= x
    decreases |s|
  {
    var x := PickOne(s);
    var rest := s - {x};
    assert forall y :: y in s ==> y == x || y in rest;
    if rest == {} {
      assert forall y :: y in s ==> x <= y;
    } else {
      HasLeast(rest);
      var m :| m in rest && forall y :: y in rest ==> m <= y;
      if x < m {
        assert forall y :: y in s ==> x <= y;
      } else {
        assert forall y :: y in s ==> m <= y;
      }
    }
  }

  /** Some element of a non-empty set. */
  lemma PickOne(s: set<int>) returns (x: int)
    requires s != {}
    ensures x in s
  {
    if forall y :: y !in s {
      assert false;
    }
    x :| x in s;
  }

  /** The least element of a non-empty set. */
  function Least(s: set<int>): (m: int)
    requires s != {}
    ensures m in s && forall x :: x in s ==> m <= x
  {
    HasLeast(s);
    var m :| m in s && forall x :: x in s ==> m <= x;
    m
  }

  /** closedNumbers.OrderBy(n => n): the elements of s in strictly ascending
      order, each once. */
  function Ascending(s: set<int>): (r: seq<int>)
    ensures |r| == |s|
    ensures forall x :: x in r <==> x in s
    ensures forall i, j :: 0 <= i < j < |r| ==> r[i] < r[j]
    decreases s
  {
    if s == {} then []
    else
      var m := Least(s);
      var smaller := s - {m};
      assert |smaller| == |s| - 1;
      var rest := Ascending(smaller);
      var r := [m] + rest;
      forall j | 0 <= j < |rest| ensures m < rest[j] {
        var y := rest[j];
        assert y in rest;
        assert y in s && y != m;
      }
      forall i, j | 0 <= i < j < |r| ensures r[i] < r[j] {
        assert r[j] == rest[j - 1];
        if i > 0 {
          assert r[i] == rest[i - 1];
        }
      }
      assert forall x :: x in r <==> x == m || x in rest;
      r
  }

  /** The ascending list holds exactly the set's elements. */
  lemma AscendingElements(s: set<int>)
    ensures (set x | x in Ascending(s)) == s
  {
  }

  /** n.ToString() of each number, in order. */
  function Rendered(xs: seq<int>): (ss: seq<string>)
    ensures |ss| == |xs|
    ensures forall i :: 0 <= i < |xs| ==> ss[i] == IntToString(xs[i])
  {
    seq(|xs|, i requires 0 <= i < |xs| => IntToString(xs[i]))
  }

  /** GetClosedNumbersText once the game's closed set is known: a fixed text
      for none, otherwise the prefix and the ascending numbers joined by ", ". */
  function ClosedNumbersText(closed: set<int>): (s: string)
    ensures closed == {} ==> s == NONE_CLOSED
    ensures closed != {} ==> CLOSED_PREFIX <= s
  {
    if |closed| == 0 then NONE_CLOSED
    else CLOSED_PREFIX + Join(Rendered(Ascending(closed)), ", ")
  }

  /** The two shapes of the text: the empty set has its own text, and every
      other set is listed after the prefix. */
  lemma ClosedNumbersTextMeaning(closed: set<int>)
    ensures closed == {} <==> ClosedNumbersText(closed) == NONE_CLOSED
    ensures closed != {} ==> CLOSED_PREFIX <= ClosedNumbersText(closed)
  {
    if closed != {} {
      assert ClosedNumbersText(closed)[0] == 'N' != NONE_CLOSED[0];
    }
  }

  /** A player who closed 20 and 15 reads "Números cerrados: 15, 20". */
  lemma ClosedNumbersTextExample()
    ensures ClosedNumbersText({20, 15}) == "Números cerrados: 15, 20"
  {
    var s := {20, 15};
    assert Least(s) == 15;
    assert s - {15} == {20};
    assert Least({20}) == 20;
    assert {20} - {20} == {};
    assert Ascending(s) == [15, 20];
    assert IntToString(15) == "15" by {
      assert DigitChar(1) == '1' && DigitChar(5) == '5';
    }
    assert IntToString(20) == "20" by {
      assert DigitChar(2) == '2' && DigitChar(0) == '0';
    }
    var r := Rendered([15, 20]);
    assert r[0] == "15" && r[1] == "20";
    assert r == ["15", "20"];
    assert Join(r, ", ") == "15, 20";
  }

  /** The numbers the pieces of a list read as. */
  function ParsedSet(ps: seq<string>): set<int> {
    set i | 0 <= i < |ps| :: ParseNat(ps[i]) as int
  }

  /** Reads a closed-numbers text back into the set it lists. */
  function ParseClosedText(t: string): set<int> {
    var n := |CLOSED_PREFIX|;
    if |t| < n || t[..n] != CLOSED_PREFIX then {}
    else
      ParsedSet(Pieces(t[n..]))
  }

  /** The rendering of non-negative numbers holds no comma, and the pieces
      read back as the numbers. */
  lemma RenderedNonNegative(xs: seq<int>)
    requires forall i :: 0 <= i < |xs| ==> xs[i] >= 0
    ensures forall i, j :: 0 <= i < |xs| && 0 <= j < |Rendered(xs)[i]| ==> Rendered(xs)[i][j] != ','
    ensures ParsedSet(Rendered(xs)) == set x | x in xs
  {
    var ss := Rendered(xs);
    forall i | 0 <= i < |xs|
      ensures forall j :: 0 <= j < |ss[i]| ==> ss[i][j] != ','
      ensures ParseNat(ss[i]) as int == xs[i]
    {
      NatToStringDigits(xs[i]);
      ParseNatToString(xs[i]);
    }
    forall x | x in xs ensures x in ParsedSet(ss) {
      var i :| 0 <= i < |xs| && xs[i] == x;
      assert ParseNat(ss[i]) as int == x;
    }
  }

  /** The joined rendering of non-negative numbers splits back into the
      rendered numbers, which read back as the numbers. */
  lemma RenderedPieces(xs: seq<int>)
    requires |xs| > 0
    requires forall i :: 0 <= i < |xs| ==> xs[i] >= 0
    ensures Pieces(Join(Rendered(xs), ", ")) == Rendered(xs)
    ensures ParsedSet(Rendered(xs)) == set x | x in xs
  {
    RenderedNonNegative(xs);
    PiecesOfJoin(Rendered(xs));
  }

  /** The text lists exactly the closed numbers: for sets of non-negative
      numbers (every closed set of the game) it can be read back. */
  lemma ClosedTextRoundTrip(closed: set<int>)
    requires forall x :: x in closed ==> x >= 0
    ensures ParseClosedText(ClosedNumbersText(closed)) == closed
  {
    var n := |CLOSED_PREFIX|;
    if closed == {} {
      assert NONE_CLOSED[0] != CLOSED_PREFIX[0];
    } else {
      var xs := Ascending(closed);
      var ss := Rendered(xs);
      var t := CLOSED_PREFIX + Join(ss, ", ");
      assert t == ClosedNumbersText(closed);
      assert t[..n] == CLOSED_PREFIX;
      assert t[n..] == Join(ss, ", ");
      RenderedPieces(xs);
      assert Pieces(t[n..]) == ss;
      assert ParseClosedText(t) == ParsedSet(ss);
      AscendingElements(closed);
      assert ParseClosedText(ClosedNumbersText(closed)) == ParseClosedText(t);
    }
  }

  /** A scoreboard row; the eight fields are the CricketMarksN properties. */
  class CricketPlayerInfo {
    const player: Player
    const game: DartsGame?
    var marks0: int
    var marks15: int
    var marks16: int
    var marks17: int
    var marks18: int
    var marks19: int
    var marks20: int
    var marks25: int
    var closedNumbersText: string

    /** The Name property is the wrapped player's name. */
    function Name(): (n: string)
      reads this
      ensures n == player.name
    {
      player.name
    }

    /** The CricketMarksN property for cricket number n. */
    function Mark(n: int): int
      reads this
      requires n in CRICKET_NUMBERS
    {
      if n == 0 then marks0
      else if n == 15 then marks15
      else if n == 16 then marks16
      else if n == 17 then marks17
      else if n == 18 then marks18
      else if n == 19 then marks19
      else if n == 20 then marks20
      else marks25
    }

    /** What the row shows once refreshed, for the game state d: each count
        the game holds for the player, 0 where it holds none, and the text
        of the player's closed set. */
    ghost predicate Shows(d: GameData)
      reads this
    {
      && (forall n :: n in CRICKET_NUMBERS ==> Mark(n) == MarkOf(d.scores, player.name, n))
      && player.name in d.closed
      && closedNumbersText == ClosedNumbersText(d.closed[player.name])
    }

    /** Without a game every mark is 0 and the text is empty. */
    ghost predicate ShowsNothing()
      reads this
    {
      && (forall n :: n in CRICKET_NUMBERS ==> Mark(n) == 0)
      && closedNumbersText == ""
    }

    constructor (player: Player, game: DartsGame?)
      requires game != null ==> game.Valid()
      modifies game
      ensures this.player == player && this.game == game
      ensures game == null ==> ShowsNothing()
      ensures game != null ==> game.Valid() && game.players == old(game.players) && game.round == old(game.round)
      ensures game != null ==> game.data == WithBoard(old(game.data), player.name) && Shows(game.data)
    {
      this.player := player;
      this.game := game;
      closedNumbersText := "";
      new;
      UpdateAllMarks();
    }

    /** GetCricketMarks: 0 without a game, else the player's count on the
        number, 0 when the board has no entry for it; the game creates the
        player's board on first use. */
    method GetCricketMarks(number: int) returns (r: int)
      requires game != null ==> game.Valid()
      modifies game
      ensures game == null ==> r == 0
      ensures game != null ==> game.Valid() && game.players == old(game.players) && game.round == old(game.round)
      ensures game != null ==> game.data == WithBoard(old(game.data), player.name)
      ensures game != null ==> r == MarkOf(old(game.data.scores), player.name, number)
    {
      if game == null {
        return 0;
      }
      var scores := game.GetPlayerCricketScores(player.name);
      WithBoardMeaning(old(game.data), player.name);
      r := if number in scores then scores[number] else 0;
    }

    /** GetClosedNumbersText: "" without a game, else the text of the
        player's closed set. */
    method GetClosedNumbersText() returns (t: string)
      requires game != null ==> game.Valid()
      modifies game
      ensures game == null ==> t == ""
      ensures game != null ==> game.Valid() && game.players == old(game.players) && game.round == old(game.round)
      ensures game != null ==> game.data == WithBoard(old(game.data), player.name)
      ensures game != null ==> player.name in game.data.closed && t == ClosedNumbersText(game.data.closed[player.name])
    {
      if game == null {
        return "";
      }
      var closedNumbers := game.GetPlayerClosedNumbers(player.name);
      if |closedNumbers| == 0 {
        return NONE_CLOSED;
      }
      t := CLOSED_PREFIX + Join(Rendered(Ascending(closedNumbers)), ", ");
    }

    /** The eight GetCricketMarks calls of UpdateAllMarks, in order. */
    method ReadMarks() returns (m0: int, m15: int, m16: int, m17: int, m18: int, m19: int, m20: int, m25: int)
      requires game != null ==> game.Valid()
      modifies game
      ensures game == null ==> m0 == m15 == m16 == m17 == m18 == m19 == m20 == m25 == 0
      ensures game != null ==> game.Valid() && game.players == old(game.players) && game.round == old(game.round)
      ensures game != null ==> game.data == WithBoard(old(game.data), player.name)
      ensures game != null ==> var s := game.data.scores;
        && m0 == MarkOf(s, player.name, 0) && m15 == MarkOf(s, player.name, 15)
        && m16 == MarkOf(s, player.name, 16) && m17 == MarkOf(s, player.name, 17)
        && m18 == MarkOf(s, player.name, 18) && m19 == MarkOf(s, player.name, 19)
        && m20 == MarkOf(s, player.name, 20) && m25 == MarkOf(s, player.name, 25)
    {
      if game != null {
        WithBoardMeaning(game.data, player.name);
      }
      m0 := GetCricketMarks(0);
      m15 := GetCricketMarks(15);
      m16 := GetCricketMarks(16);
      m17 := GetCricketMarks(17);
      m18 := GetCricketMarks(18);
      m19 := GetCricketMarks(19);
      m20 := GetCricketMarks(20);
      m25 := GetCricketMarks(25);
    }

    /** UpdateAllMarks: every mark field and the text read afresh from the game. */
    method UpdateAllMarks()
      requires game != null ==> game.Valid()
      modifies this, game
      ensures game == null ==> ShowsNothing()
      ensures game != null ==> game.Valid() && game.players == old(game.players) && game.round == old(game.round)
      ensures game != null ==> game.data == WithBoard(old(game.data), player.name) && Shows(game.data)
    {
      var m0, m15, m16, m17, m18, m19, m20, m25 := ReadMarks();
      label read:
      var text := GetClosedNumbersText();
      if game != null {
        WithBoardMeaning(old(game.data), player.name);
        assert game.data == old@read(game.data);
        assert this !in game.round.Repr;
      }
      SetAll(m0, m15, m16, m17, m18, m19, m20, m25, text);
      if game != null {
        forall n | n in CRICKET_NUMBERS ensures Mark(n) == MarkOf(game.data.scores, player.name, n) {
          assert n == 0 || n == 15 || n == 16 || n == 17 || n == 18 || n == 19 || n == 20 || n == 25;
        }
      }
    }

    /** The nine property setters of UpdateAllMarks. */
    method SetAll(m0: int, m15: int, m16: int, m17: int, m18: int, m19: int, m20: int, m25: int, text: string)
      modifies this
      ensures marks0 == m0 && marks15 == m15 && marks16 == m16 && marks17 == m17 && marks18 == m18
      ensures marks19 == m19 && marks20 == m20 && marks25 == m25 && closedNumbersText == text
    {
      marks0, marks15, marks16, marks17, marks18, marks19, marks20, marks25, closedNumbersText :=
        m0, m15, m16, m17, m18, m19, m20, m25, text;
    }

    /** Refresh: re-reads the row from the game (the debug trace is not modelled). */
    method Refresh()
      requires game != null ==> game.Valid()
      modifies this, game
      ensures game == null ==> ShowsNothing()
      ensures game != null ==> game.Valid() && game.players == old(game.players) && game.round == old(game.round)
      ensures game != null ==> game.data == WithBoard(old(game.data), player.name) && Shows(game.data)
    {
      UpdateAllMarks();
    }
  }
}
