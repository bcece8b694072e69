/**
 * One player's turn: three dart slots and a cursor (Round).  Slot i holds a
 * valid throw exactly when i is below the cursor, so the round total is the
 * sum of the throws made so far.
 */
module Rounds {
  import opened Throws

  /** The observable content of one DartThrow slot. */
  datatype Slot = Slot(number: int, marks: int, valid: bool)

  const EmptySlot := Slot(0, 0, false)

  function SlotPoints(s: Slot): int {
    if s.valid then s.number * s.marks else 0
  }

  /** Sum of the points of the valid slots (the TotalPoints getter). */
  function Total(slots: seq<Slot>): int
    decreases |slots|
  {
    if slots == [] then 0 else Total(slots[..|slots| - 1]) + SlotPoints(slots[|slots| - 1])
  }

  /** Replacing one slot changes the total by the difference of the two slots' points. */
  lemma {:induction false} TotalUpdate(slots: seq<Slot>, k: nat, x: Slot)
    requires k < |slots|
    ensures Total(slots[k := x]) == Total(slots) - SlotPoints(slots[k]) + SlotPoints(x)
    decreases |slots|
  {
    var n := |slots| - 1;
    var upd := slots[k := x];
    assert upd[..n] == if k < n then slots[..n][k := x] else slots[..n];
    if k < n {
      TotalUpdate(slots[..n], k, x);
    }
  }

  /** With every valid slot before k and none after, the total is the total of the first k slots. */
  lemma {:induction false} TotalOfPrefix(slots: seq<Slot>, k: nat)
    requires k <= |slots|
    requires forall i :: 0 <= i < |slots| ==> (slots[i].valid <==> i < k)
    ensures Total(slots) == Total(slots[..k])
    decreases |slots|
  {
    if |slots| > k {
      var n := |slots| - 1;
      assert slots[..n][..k] == slots[..k];
      TotalOfPrefix(slots[..n], k);
    } else {
      assert slots[..k] == slots;
    }
  }

  /** A successful throw followed by an undo leaves the round total as it was
      (the undone slot is cleared, and a cleared slot is worth nothing). */
  lemma AddThenUndoTotal(slots: seq<Slot>, k: nat, number: int, marks: int)
    requires k < |slots| && !slots[k].valid
    ensures Total(slots[k := Slot(number, marks, true)][k := EmptySlot]) == Total(slots)
  {
    assert slots[k := Slot(number, marks, true)][k := EmptySlot] == slots[k := EmptySlot];
    TotalUpdate(slots, k, EmptySlot);
  }

  class Round {
    var playerName: string
    var roundNumber: int
    const throws: array<DartThrow>
    var currentThrowIndex: int
    ghost var Repr: set<object>

    ghost predicate Valid()
      reads this, Repr
    {
      && this in Repr && throws in Repr && throws.Length == 3
      && throws[0] in Repr && throws[1] in Repr && throws[2] in Repr
      && Repr == {this, throws, throws[0], throws[1], throws[2]}
      && throws[0] != throws[1] && throws[0] != throws[2] && throws[1] != throws[2]
      && 0 <= currentThrowIndex <= 3
      && (forall i :: 0 <= i < 3 ==> throws[i].Consistent())
      && (forall i :: 0 <= i < 3 ==> (throws[i].isValid <==> i < currentThrowIndex))
    }

    /** The three slots as values. */
    ghost function Slots(): (s: seq<Slot>)
      reads this, Repr
      requires Valid()
      ensures |s| == 3
      ensures forall i :: 0 <= i < 3 ==> (s[i].valid <==> i < currentThrowIndex)
    {
      [SlotOf(throws[0]), SlotOf(throws[1]), SlotOf(throws[2])]
    }

    static ghost function SlotOf(t: DartThrow): Slot
      reads t
    {
      Slot(t.number, t.marks, t.isValid)
    }

    /** A new round: three throws at (0, 0), none valid, cursor 0, total 0. */
    constructor (playerName: string, roundNumber: int)
      ensures Valid() && fresh(Repr)
      ensures this.playerName == playerName && this.roundNumber == roundNumber
      ensures currentThrowIndex == 0
      ensures Slots() == [EmptySlot, EmptySlot, EmptySlot]
      ensures Total(Slots()) == 0
    {
      this.playerName := playerName;
      this.roundNumber := roundNumber;
      var t0 := new DartThrow(0, 0);
      var t1 := new DartThrow(0, 0);
      var t2 := new DartThrow(0, 0);
      throws := new DartThrow[3] [t0, t1, t2];
      currentThrowIndex := 0;
      Repr := {this, throws, t0, t1, t2};
      new;
      TotalOfPrefix(Slots(), 0);
    }

    /** IsComplete */
    function IsComplete(): (b: bool)
      reads this, Repr
      requires Valid()
      ensures b <==> currentThrowIndex == 3
    {
      currentThrowIndex >= 3
    }

    /** CurrentThrow: the slot under the cursor, or null once the round is complete. */
    function CurrentThrow(): (t: DartThrow?)
      reads this, Repr
      requires Valid()
      ensures t == null <==> IsComplete()
      ensures t != null ==> t == throws[currentThrowIndex] && !t.isValid
    {
      if currentThrowIndex < 3 then throws[currentThrowIndex] else null
    }

    /** AddThrow: writes the pair into the slot under the cursor and advances
        only when the pair is valid; a rejected pair stays in the slot. */
    method AddThrow(number: int, marks: int) returns (ok: bool)
      requires Valid()
      modifies Repr
      ensures Valid() && Repr == old(Repr)
      ensures playerName == old(playerName) && roundNumber == old(roundNumber)
      ensures ok <==> old(currentThrowIndex) < 3 && IsValidThrow(number, marks)
      ensures old(currentThrowIndex) == 3 ==> currentThrowIndex == 3 && Slots() == old(Slots())
      ensures old(currentThrowIndex) < 3 ==>
        && Slots() == old(Slots())[old(currentThrowIndex) := Slot(number, marks, ok)]
        && currentThrowIndex == old(currentThrowIndex) + (if ok then 1 else 0)
    {
      if IsComplete() {
        return false;
      }
      var t := throws[currentThrowIndex];
      t.SetNumber(number);
      t.SetMarks(marks);
      if t.isValid {
        currentThrowIndex := currentThrowIndex + 1;
        return true;
      }
      return false;
    }

    /** ClearCurrentThrow: clears the slot under the cursor, if any. */
    method ClearCurrentThrow()
      requires Valid()
      modifies Repr
      ensures Valid() && Repr == old(Repr)
      ensures playerName == old(playerName) && roundNumber == old(roundNumber)
      ensures currentThrowIndex == old(currentThrowIndex)
      ensures Slots() == if old(currentThrowIndex) < 3 then old(Slots())[old(currentThrowIndex) := EmptySlot] else old(Slots())
      ensures Total(Slots()) == Total(old(Slots()))
    {
      if !IsComplete() {
        ghost var before := Slots();
        throws[currentThrowIndex].Clear();
        TotalUpdate(before, currentThrowIndex, EmptySlot);
      }
    }

    /** UndoLastThrow: a no-op at cursor 0; otherwise steps back and clears that slot. */
    method UndoLastThrow()
      requires Valid()
      modifies Repr
      ensures Valid() && Repr == old(Repr)
      ensures playerName == old(playerName) && roundNumber == old(roundNumber)
      ensures old(currentThrowIndex) == 0 ==> currentThrowIndex == 0 && Slots() == old(Slots())
      ensures old(currentThrowIndex) > 0 ==>
        && currentThrowIndex == old(currentThrowIndex) - 1
        && Slots() == old(Slots())[currentThrowIndex := EmptySlot]
        && Total(Slots()) == Total(old(Slots())) - SlotPoints(old(Slots())[currentThrowIndex])
    {
      if currentThrowIndex > 0 {
        ghost var before := Slots();
        currentThrowIndex := currentThrowIndex - 1;
        throws[currentThrowIndex].Clear();
        TotalUpdate(before, currentThrowIndex, EmptySlot);
      }
    }

    /** ClearRound: all three slots back to (0, 0), cursor 0, total 0. */
    method ClearRound()
      requires Valid()
      modifies Repr
      ensures Valid() && Repr == old(Repr)
      ensures playerName == old(playerName) && roundNumber == old(roundNumber)
      ensures currentThrowIndex == 0
      ensures Slots() == [EmptySlot, EmptySlot, EmptySlot]
      ensures Total(Slots()) == 0
    {
      for i := 0 to 3
        modifies throws[0], throws[1], throws[2]
        invariant forall j :: 0 <= j < i ==> throws[j].number == 0 && throws[j].marks == 0 && !throws[j].isValid
        invariant forall j :: i <= j < 3 ==> throws[j].Valid()
      {
        throws[i].Clear();
      }
      currentThrowIndex := 0;
      TotalOfPrefix(Slots(), 0);
    }

    /** TotalPoints: the foreach accumulator over the three slots. */
    method TotalPoints() returns (total: int)
      requires Valid()
      ensures total == Total(Slots())
      ensures total == Total(Slots()[..currentThrowIndex])
    {
      total := 0;
      ghost var s := Slots();
      for i := 0 to 3
        invariant total == Total(s[..i])
      {
        assert s[..i + 1][..i] == s[..i];
        var t := throws[i];
        if t.isValid {
          total := total + t.Points();
        }
      }
      assert s[..3] == s;
      TotalOfPrefix(s, currentThrowIndex);
    }
  }
}
