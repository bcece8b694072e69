/**
 * The Cricket rules of DartsGame as pure functions: the mark board of a
 * player, one dart applied to it (ProcessCricketScore), a whole round applied
 * in slot order (ProcessCricketRoundScore), the per-dart points of the
 * statistics (CalculateThrowPoints) and the marks credited to the mark
 * average (RecordThrowStats).
 */
module Cricket {
  import opened Wrappers
  import opened Modes
  import opened Rounds
  import Throws

  /** CRICKET_NUMBERS: 0 stands for a miss and 25 for the bull. */
  const CRICKET_NUMBERS: set<int> := set n | 0 <= n <= 25 && (n == 0 || IsClosable(n))
  /** CRICKET_CLOSABLE_NUMBERS: the cricket numbers without the miss. */
  const CLOSABLE_NUMBERS: set<int> := set n | 0 <= n <= 25 && IsClosable(n)

  /** 15 to 20 and the bull. */
  predicate IsClosable(n: int) {
    15 <= n <= 20 || n == 25
  }

  /** The cricket numbers in the order of the source's array. */
  const CRICKET_ORDER: seq<int> := [0, 15, 16, 17, 18, 19, 20, 25]

  lemma CricketOrderListsNumbers()
    ensures forall n :: n in CRICKET_ORDER <==> n in CRICKET_NUMBERS
    ensures forall i, j :: 0 <= i < j < |CRICKET_ORDER| ==> CRICKET_ORDER[i] < CRICKET_ORDER[j]
  {
  }

  /** A player's marks per cricket number. */
  type Counts = map<int, int>

  function Min(a: int, b: int): int { if a <= b then a else b }
  function Max(a: int, b: int): int { if a >= b then a else b }

  /** The board InitializeCricketScores gives a player: 0 marks on every cricket number. */
  function ZeroMarks(): (m: Counts)
    ensures m.Keys == CRICKET_NUMBERS
    ensures forall n :: n in m ==> m[n] == 0
  {
    map n | n in CRICKET_NUMBERS :: 0
  }

  /** A player's board as the game keeps it: a count 0..3 per cricket number,
      and a closed set holding exactly the closable numbers that reached 3. */
  predicate WellFormed(counts: Counts, closed: set<int>) {
    && counts.Keys == CRICKET_NUMBERS
    && (forall n :: n in counts ==> 0 <= counts[n] <= 3)
    && (forall n :: n in closed ==> n in CLOSABLE_NUMBERS && n in counts && counts[n] == 3)
    && (forall n :: n in CLOSABLE_NUMBERS && n in counts && counts[n] == 3 ==> n in closed)
  }

  lemma ZeroMarksWellFormed()
    ensures WellFormed(ZeroMarks(), {})
  {
  }

  /** GetNumberValue: both bulls and every other number are worth their face value. */
  function NumberValue(number: int): (v: int)
    ensures v == number
  {
    match number
    case 25 => 25
    case 50 => 50
    case _ => number
  }

  /** The board GetPlayerCricketScores yields for a name: the stored one, or a
      fresh zero board when the name has none yet. */
  function BoardOf(marks: map<string, Counts>, name: string): Counts {
    if name in marks then marks[name] else ZeroMarks()
  }

  /** The marks a name has on a number, 0 when that number has no entry. */
  function MarkOf(marks: map<string, Counts>, name: string, n: int): int {
    var b := BoardOf(marks, name);
    if n in b then b[n] else 0
  }

  /** The allOthersClosed query: every roster name other than `cur` has at
      least 3 marks on n (a number without an entry counts as 0 marks). */
  predicate AllOthersClosed(names: seq<string>, marks: map<string, Counts>, cur: string, n: int) {
    forall i :: 0 <= i < |names| && names[i] != cur ==> MarkOf(marks, names[i], n) >= 3
  }

  /** The same query as the source evaluates it: the roster is scanned in
      order and each other player's board is indexed by n, which fails
      (None) on a board without an entry for n. */
  function AllOthersClosedAsWritten(names: seq<string>, marks: map<string, Counts>, cur: string, n: int): Option<bool>
    decreases |names|
  {
    if names == [] then Some(true)
    else if names[0] == cur then AllOthersClosedAsWritten(names[1..], marks, cur, n)
    else
      var b := BoardOf(marks, names[0]);
      if n !in b then None
      else if b[n] >= 3 then AllOthersClosedAsWritten(names[1..], marks, cur, n)
      else Some(false)
  }

  /** Changing the thrower's own board does not change what the opponents have closed. */
  lemma AllOthersClosedIgnoresOwn(names: seq<string>, marks: map<string, Counts>, cur: string, b: Counts, n: int)
    ensures AllOthersClosed(names, marks[cur := b], cur, n) == AllOthersClosed(names, marks, cur, n)
  {
    assert forall i :: 0 <= i < |names| && names[i] != cur ==>
      MarkOf(marks[cur := b], names[i], n) == MarkOf(marks, names[i], n);
  }

  /** The cricket numbers that every roster name other than `cur` has closed. */
  function OthersClosed(names: seq<string>, marks: map<string, Counts>, cur: string): set<int> {
    set n | n in CRICKET_NUMBERS && AllOthersClosed(names, marks, cur, n)
  }

  /** Every stored board has an entry for exactly the cricket numbers. */
  predicate Boards(marks: map<string, Counts>) {
    forall q :: q in marks ==> marks[q].Keys == CRICKET_NUMBERS
  }

  predicate HasOther(names: seq<string>, cur: string) {
    exists i :: 0 <= i < |names| && names[i] != cur
  }

  /** On well-formed boards the source's query is defined exactly for the
      cricket numbers or when there is no other player, and then it agrees
      with AllOthersClosed. */
  lemma {:induction false} AllOthersClosedAsWrittenDefined(names: seq<string>, marks: map<string, Counts>, cur: string, n: int)
    requires Boards(marks)
    ensures AllOthersClosedAsWritten(names, marks, cur, n).Some? <==> n in CRICKET_NUMBERS || !HasOther(names, cur)
    ensures AllOthersClosedAsWritten(names, marks, cur, n).Some? ==>
      AllOthersClosedAsWritten(names, marks, cur, n).value == AllOthersClosed(names, marks, cur, n)
    decreases |names|
  {
    if names != [] {
      var rest := names[1..];
      AllOthersClosedAsWrittenDefined(rest, marks, cur, n);
      assert forall i :: 0 <= i < |rest| ==> rest[i] == names[i + 1];
      if HasOther(rest, cur) {
        var i :| 0 <= i < |rest| && rest[i] != cur;
        assert names[i + 1] != cur;
      }
      if names[0] != cur {
        assert HasOther(names, cur) by { assert names[0] != cur; }
      } else if HasOther(names, cur) {
        var i :| 0 <= i < |names| && names[i] != cur;
        assert i > 0 && rest[i - 1] != cur;
      }
    }
  }

  /** CalculateThrowPoints, with a number missing from a board read as 0
      marks: the dart's face value in X01; in Cricket the value times the marks
      only when the thrower has closed the number and some opponent has not. */
  function ThrowPoints(mode: GameMode, names: seq<string>, marks: map<string, Counts>,
                       closed: map<string, set<int>>, cur: Option<string>, number: int, marksThrown: int): (r: int)
    ensures mode == Cricket && r != 0 ==>
      cur.Some? && cur.value in closed && number in closed[cur.value] && !AllOthersClosed(names, marks, cur.value, number)
  {
    if mode == X01 then number * marksThrown
    else if cur.None? then 0
    else
      var own := if cur.value in closed then closed[cur.value] else {};
      if number in own && !AllOthersClosed(names, marks, cur.value, number) then NumberValue(number) * marksThrown
      else 0
  }

  /** CalculateThrowPoints as written: in Cricket the allOthersClosed query
      runs before anything else and fails on a number without an entry. */
  function ThrowPointsAsWritten(mode: GameMode, names: seq<string>, marks: map<string, Counts>,
                                closed: map<string, set<int>>, cur: Option<string>, number: int, marksThrown: int): (r: Option<int>)
    ensures r.None? ==> mode != X01 && cur.Some?
    ensures mode == Cricket && r.Some? && r.value != 0 ==>
      cur.Some? && cur.value in closed && number in closed[cur.value]
  {
    if mode == X01 then Some(number * marksThrown)
    else if cur.None? then Some(0)
    else
      var own := if cur.value in closed then closed[cur.value] else {};
      match AllOthersClosedAsWritten(names, marks, cur.value, number)
      case None => None
      case Some(others) => Some(if number in own && !others then NumberValue(number) * marksThrown else 0)
  }

  /** Whenever the source's computation gets through, it agrees with ThrowPoints;
      on well-formed boards it fails exactly for a Cricket dart on a
      non-cricket number with another player in the roster. */
  lemma ThrowPointsAsWrittenAgrees(mode: GameMode, names: seq<string>, marks: map<string, Counts>,
                                   closed: map<string, set<int>>, cur: Option<string>, number: int, marksThrown: int)
    requires Boards(marks)
    ensures ThrowPointsAsWritten(mode, names, marks, closed, cur, number, marksThrown).Some? ==>
      ThrowPointsAsWritten(mode, names, marks, closed, cur, number, marksThrown).value ==
      ThrowPoints(mode, names, marks, closed, cur, number, marksThrown)
    ensures ThrowPointsAsWritten(mode, names, marks, closed, cur, number, marksThrown).None? <==>
      mode == Cricket && cur.Some? && number !in CRICKET_NUMBERS && HasOther(names, cur.value)
  {
    if mode == Cricket && cur.Some? {
      AllOthersClosedAsWrittenDefined(names, marks, cur.value, number);
    }
  }

  /** Two players on fresh boards in Cricket: a valid single 5 by the first
      player makes the source's query index a board without a 5. */
  lemma NonCricketDartFails()
    ensures ThrowPointsAsWritten(Cricket, ["A", "B"], map["A" := ZeroMarks(), "B" := ZeroMarks()],
                                 map["A" := {}, "B" := {}], Some("A"), 5, 1).None?
    ensures Throws.IsValidThrow(5, 1)
  {
    var marks := map["A" := ZeroMarks(), "B" := ZeroMarks()];
    assert 5 !in BoardOf(marks, "B");
  }

  /** With the corrected lookup, a Cricket dart on a number the thrower has
      not closed is worth nothing, and so is every dart on a non-cricket
      number, since no closed set holds one. */
  lemma ThrowPointsOutsideClosedSet(names: seq<string>, marks: map<string, Counts>,
                                    closed: map<string, set<int>>, cur: string, number: int, marksThrown: int)
    requires cur in closed && cur in marks && WellFormed(marks[cur], closed[cur])
    ensures number !in closed[cur] ==> ThrowPoints(Cricket, names, marks, closed, Some(cur), number, marksThrown) == 0
    ensures number !in CRICKET_NUMBERS ==> ThrowPoints(Cricket, names, marks, closed, Some(cur), number, marksThrown) == 0
  {
  }

  /** The scoring state of the thrower: board, closed set and score. */
  datatype Board = Board(counts: Counts, closed: set<int>, score: int)

  /** Points scored by the marks that land on an already-closed number
      ("normal marks"); see NormalPointsVanish. */
  function NormalPoints(b: Board, number: int, marks: int, othersClosed: bool, closed: set<int>, justClosed: bool): int
    requires number in b.counts
  {
    var effective := Min(marks, 3 - b.counts[number]);
    if number in closed && !justClosed && !othersClosed then NumberValue(number) * effective else 0
  }

  /** Points scored by the marks beyond those needed to close the number. */
  function OvermarkPoints(b: Board, number: int, marks: int, othersClosed: bool): int
    requires number in b.counts
  {
    var overmarks := Max(0, marks - (3 - b.counts[number]));
    if overmarks > 0 && !othersClosed then NumberValue(number) * overmarks else 0
  }

  /** ProcessCricketScore for one dart on a cricket number: the marks are
      capped at 3, the number is closed when it first reaches 3, and the
      normal and overmark points are added unless every opponent has closed it. */
  function CricketDart(b: Board, number: int, marks: int, othersClosed: bool): (r: Board)
    requires number in b.counts
    ensures r.counts.Keys == b.counts.Keys
  {
    var prev := b.counts[number];
    var effective := Min(marks, 3 - prev);
    var count := Min(prev + effective, 3);
    var justClosed := prev < 3 && count == 3;
    var closed := if justClosed && number in CLOSABLE_NUMBERS then b.closed + {number} else b.closed;
    var normal := NormalPoints(b, number, marks, othersClosed, closed, justClosed);
    var over := OvermarkPoints(b, number, marks, othersClosed);
    Board(b.counts[number := count], closed, b.score + normal + over)
  }

  /** The "normal marks" branch never scores: a number in the closed set that
      did not just close already had 3 marks, so no marks are effective. */
  lemma NormalPointsVanish(b: Board, number: int, marks: int, othersClosed: bool)
    requires WellFormed(b.counts, b.closed) && number in b.counts && marks >= 0
    ensures var prev := b.counts[number];
      var count := Min(prev + Min(marks, 3 - prev), 3);
      var justClosed := prev < 3 && count == 3;
      var closed := if justClosed && number in CLOSABLE_NUMBERS then b.closed + {number} else b.closed;
      NormalPoints(b, number, marks, othersClosed, closed, justClosed) == 0
  {
  }

  /** One dart with m >= 0 marks on a cricket number n with `prev` marks:
      the count becomes min(prev + m, 3), nothing else on the board moves, n
      joins the closed set exactly when a closable n first reaches 3, and the
      score rises by n * max(0, m - (3 - prev)) unless every opponent has
      closed n.  The board stays well formed. */
  lemma CricketDartRules(b: Board, number: int, marks: int, othersClosed: bool)
    requires WellFormed(b.counts, b.closed) && number in b.counts && marks >= 0
    ensures var r := CricketDart(b, number, marks, othersClosed);
      var prev := b.counts[number];
      && r.counts == b.counts[number := Min(prev + marks, 3)]
      && r.closed == (if prev < 3 && prev + marks >= 3 && number in CLOSABLE_NUMBERS then b.closed + {number} else b.closed)
      && r.score == b.score + (if othersClosed then 0 else number * Max(0, marks - (3 - prev)))
      && WellFormed(r.counts, r.closed)
  {
    NormalPointsVanish(b, number, marks, othersClosed);
  }

  /** ProcessCricketRoundScore: the valid throws of the round in slot order,
      each on a cricket number applied as one dart; a throw on 50 is not a
      cricket number and is skipped.  othersClosed lists the numbers every
      opponent has closed; the thrower's darts cannot change it. */
  function CricketRound(b: Board, slots: seq<Slot>, othersClosed: set<int>): (r: Board)
    requires b.counts.Keys == CRICKET_NUMBERS
    ensures r.counts.Keys == CRICKET_NUMBERS
    decreases |slots|
  {
    if slots == [] then b
    else
      var before := CricketRound(b, slots[..|slots| - 1], othersClosed);
      var s := slots[|slots| - 1];
      if s.valid && s.number in CRICKET_NUMBERS then CricketDart(before, s.number, s.marks, s.number in othersClosed)
      else before
  }

  /** Valid throws carry at least one mark. */
  predicate ValidSlots(slots: seq<Slot>) {
    forall i :: 0 <= i < |slots| ==> slots[i].valid ==> Throws.IsValidThrow(slots[i].number, slots[i].marks)
  }

  /** A round keeps the board well formed and never takes marks away or
      reopens a number. */
  lemma {:induction false} CricketRoundMonotone(b: Board, slots: seq<Slot>, othersClosed: set<int>)
    requires WellFormed(b.counts, b.closed) && ValidSlots(slots)
    ensures var r := CricketRound(b, slots, othersClosed);
      && WellFormed(r.counts, r.closed)
      && (forall n :: n in b.counts ==> b.counts[n] <= r.counts[n])
      && b.closed <= r.closed
    decreases |slots|
  {
    if slots != [] {
      var front := slots[..|slots| - 1];
      assert ValidSlots(front) by {
        forall i | 0 <= i < |front| ensures front[i].valid ==> Throws.IsValidThrow(front[i].number, front[i].marks) {
          assert front[i] == slots[i];
        }
      }
      CricketRoundMonotone(b, front, othersClosed);
      var before := CricketRound(b, front, othersClosed);
      var s := slots[|slots| - 1];
      if s.valid && s.number in CRICKET_NUMBERS {
        assert Throws.IsValidThrow(s.number, s.marks);
        CricketDartRules(before, s.number, s.marks, s.number in othersClosed);
      }
    }
  }

  /** A round whose valid throws all miss the cricket numbers (50 included)
      leaves the board and the score as they were. */
  lemma {:induction false} CricketRoundIgnoresOtherNumbers(b: Board, slots: seq<Slot>, othersClosed: set<int>)
    requires b.counts.Keys == CRICKET_NUMBERS
    requires forall i :: 0 <= i < |slots| ==> slots[i].valid ==> slots[i].number !in CRICKET_NUMBERS
    ensures CricketRound(b, slots, othersClosed) == b
    decreases |slots|
  {
    if slots != [] {
      var front := slots[..|slots| - 1];
      forall i | 0 <= i < |front| ensures front[i].valid ==> front[i].number !in CRICKET_NUMBERS {
        assert front[i] == slots[i];
      }
      CricketRoundIgnoresOtherNumbers(b, front, othersClosed);
    }
  }

  /** An inner bull (50, valid with marks 1 or 2) is one such throw. */
  lemma InnerBullSkipped(b: Board, marks: int, othersClosed: set<int>)
    requires b.counts.Keys == CRICKET_NUMBERS && Throws.IsValidThrow(50, marks)
    ensures CricketRound(b, [Slot(50, marks, true)], othersClosed) == b
  {
    CricketRoundIgnoresOtherNumbers(b, [Slot(50, marks, true)], othersClosed);
  }

  /** The per-dart statistics path reads an inner bull as two marks on 25. */
  function StatsDart(number: int, marks: int): (d: (int, int))
    ensures number == 50 ==> d == (25, 2)
    ensures number != 50 ==> d == (number, marks)
  {
    if number == 50 then (25, 2) else (number, marks)
  }

  /** The marks RecordThrowStats credits toward the mark average: all the
      marks, except that once every opponent has closed the number only the
      marks still needed to close it count. */
  function CreditedMarks(prev: int, marks: int, othersClosed: bool): (c: int)
    ensures othersClosed ==> c == Min(marks, 3 - prev)
    ensures !othersClosed ==> c == marks
    ensures 0 <= prev <= 3 && marks >= 0 ==> 0 <= c <= marks
  {
    if othersClosed && marks > 3 - prev then 3 - prev else marks
  }
}
