/**
 * A single dart: the (number, marks) pair of DartThrow, with the validity flag
 * that the setters recompute whenever a field actually changes.
 */
module Throws {

  /** The rule of ValidateThrow: 0..20, outer bull 25 or inner bull 50, with
      marks 1..3; both bulls take only marks 1 or 2, and a miss (0) only 1. */
  predicate IsValidThrow(number: int, marks: int): (r: bool)
    ensures r ==> 0 <= number <= 50 && 1 <= marks <= 3
    ensures r && (number == 0 || number >= 25) ==> marks <= 2
  {
    var validNumber := (0 <= number <= 20) || number == 25 || number == 50;
    var validMarks :=
      if number == 0 then marks == 1
      else if number == 25 || number == 50 then marks == 1 || marks == 2
      else 1 <= marks <= 3;
    validNumber && validMarks
  }

  /** Every valid throw is worth between 0 (a miss) and 100 (inner bull, marks 2) points. */
  lemma ValidThrowPoints(number: int, marks: int)
    requires IsValidThrow(number, marks)
    ensures 0 <= number * marks <= 100
    ensures number * marks == 0 <==> number == 0
  {
  }

  class DartThrow {
    var number: int
    var marks: int
    var isValid: bool

    /** The flag never claims validity for a pair that breaks the rule.  It may
        be false for a valid pair that the constructor stored without validating. */
    ghost predicate Valid()
      reads this
    {
      isValid ==> IsValidThrow(number, marks)
    }

    /** The flag agrees with the rule: true after every setter call that changed a field. */
    ghost predicate Consistent()
      reads this
    {
      isValid == IsValidThrow(number, marks)
    }

    /** The constructor stores both values and does not validate them. */
    constructor (number: int, marks: int)
      ensures Valid()
      ensures this.number == number && this.marks == marks && !isValid
    {
      this.number := number;
      this.marks := marks;
      this.isValid := false;
    }

    /** ValidateThrow */
    method Validate()
      modifies this
      ensures number == old(number) && marks == old(marks)
      ensures Consistent() && Valid()
    {
      isValid := IsValidThrow(number, marks);
    }

    /** The Number setter: assigning the current value changes nothing. */
    method SetNumber(value: int)
      modifies this
      ensures number == value && marks == old(marks)
      ensures old(number) != value ==> isValid == IsValidThrow(value, marks)
      ensures old(number) == value ==> isValid == old(isValid)
      ensures old(Valid()) ==> Valid()
      ensures old(Consistent()) ==> Consistent()
    {
      if number != value {
        number := value;
        Validate();
      }
    }

    /** The Marks setter: assigning the current value changes nothing. */
    method SetMarks(value: int)
      modifies this
      ensures marks == value && number == old(number)
      ensures old(marks) != value ==> isValid == IsValidThrow(number, value)
      ensures old(marks) == value ==> isValid == old(isValid)
      ensures old(Valid()) ==> Valid()
      ensures old(Consistent()) ==> Consistent()
    {
      if marks != value {
        marks := value;
        Validate();
      }
    }

    /** Points: zero for an invalid throw, number times marks for a valid one. */
    function Points(): (p: int)
      reads this
      ensures !isValid ==> p == 0
      ensures Valid() ==> 0 <= p <= 100
      ensures Valid() && isValid ==> p == number * marks
    {
      if !isValid then 0 else number * marks
    }

    /** Clear resets the throw to (0, 0), which is never valid. */
    method Clear()
      requires Valid()
      modifies this
      ensures number == 0 && marks == 0 && !isValid
      ensures Consistent() && Points() == 0
    {
      SetNumber(0);
      SetMarks(0);
    }
  }
}
