/**
 * CheckoutCalculator: the exhaustive search for X01 finishes of one, two or
 * three darts that end on a double (or on the single bull).
 *
 * The search is specified by the functions Grid, Row and Cell, which list the
 * candidate dart sequences in exactly the order of the source's nested loops;
 * Checkouts is the whole result before sorting.  The Find*Checkouts methods
 * are the loops themselves, proved to append exactly the rendering of that
 * list.
 */
module CheckoutSpec {
  import opened Text

  /** The numbers and marks the search ranges over, in loop order. */
  const VALID_NUMBERS: seq<int> := seq(21, i requires 0 <= i < 21 => if i == 20 then 25 else i + 1)
  const VALID_MARKS: seq<int> := seq(3, j requires 0 <= j < 3 => j + 1)
  const NUMBER_COUNT := 21
  const MARK_COUNT := 3
  /** Scores above this bound are rejected before any search. */
  const MAX_CHECKOUT := 170

  datatype Dart = Dart(number: int, marks: int)

  /** CheckoutCombination, without its change notifications. */
  datatype Combination = Combination(displayText: string, totalPoints: int, isPossible: bool)

  function Points(d: Dart): int {
    d.number * d.marks
  }

  function Sum(ds: seq<Dart>): int {
    if ds == [] then 0 else Sum(ds[..|ds| - 1]) + Points(ds[|ds| - 1])
  }

  /** The finishing rule: a double, or the single bull (the outer bull counts as a double). */
  predicate IsFinishing(d: Dart) {
    d.marks == 2 || (d.number == 25 && d.marks == 1)
  }

  predicate IsValidNumber(n: int) {
    1 <= n <= 20 || n == 25
  }

  /** A dart the search can produce: a number of VALID_NUMBERS with marks of VALID_MARKS. */
  predicate InDomain(d: Dart) {
    IsValidNumber(d.number) && 1 <= d.marks <= 3
  }

  /** A checkout of `score`: one to three darts of the domain that add up to it and end on a finishing dart. */
  predicate IsCheckout(score: int, ds: seq<Dart>) {
    1 <= |ds| <= 3
    && (forall t :: 0 <= t < |ds| ==> InDomain(ds[t]))
    && Sum(ds) == score
    && IsFinishing(ds[|ds| - 1])
  }

  /** The entry of VALID_NUMBERS at index i. */
  function NumberAt(i: nat): int
    requires i < NUMBER_COUNT
  {
    if i == 20 then 25 else i + 1
  }

  /** The tables, read entry by entry. */
  lemma Tables()
    ensures |VALID_NUMBERS| == NUMBER_COUNT && |VALID_MARKS| == MARK_COUNT
    ensures forall i :: 0 <= i < NUMBER_COUNT ==> VALID_NUMBERS[i] == NumberAt(i)
    ensures forall j :: 0 <= j < MARK_COUNT ==> VALID_MARKS[j] == j + 1
  {
  }

  /** InDomain is membership in the two tables. */
  lemma InDomainIff(d: Dart)
    ensures InDomain(d) <==> d.number in VALID_NUMBERS && d.marks in VALID_MARKS
  {
    Tables();
    if IsValidNumber(d.number) {
      assert VALID_NUMBERS[NumberIndex(d.number)] == d.number;
    }
    if 1 <= d.marks <= 3 {
      assert VALID_MARKS[d.marks - 1] == d.marks;
    }
  }

  function DartAt(i: nat, j: nat): (d: Dart)
    requires i < NUMBER_COUNT && j < MARK_COUNT
    ensures InDomain(d)
  {
    Dart(NumberAt(i), j + 1)
  }

  function NumberIndex(n: int): (i: nat)
    requires IsValidNumber(n)
    ensures i < NUMBER_COUNT && NumberAt(i) == n
  {
    if n == 25 then 20 else n - 1
  }

  // ---------------------------------------------------------------------
  // The search, in loop order
  // ---------------------------------------------------------------------

  /**
   * The accepted completions of `pre` by `k` more darts whose first added
   * dart has a number index below `i`, in the order the loops find them.
   */
  function Grid(score: int, pre: seq<Dart>, k: nat, i: nat): seq<seq<Dart>>
    requires 1 <= k && i <= NUMBER_COUNT
    decreases k, i, 4, score
  {
    if i == 0 then [] else Grid(score, pre, k, i - 1) + Row(score, pre, k, i - 1, 3)
  }

  /** As Grid, for first added dart number index `i` and marks index below `j`. */
  function Row(score: int, pre: seq<Dart>, k: nat, i: nat, j: nat): seq<seq<Dart>>
    requires 1 <= k && i < NUMBER_COUNT && j <= MARK_COUNT
    decreases k, i, j, score
  {
    if j == 0 then [] else Row(score, pre, k, i, j - 1) + Cell(score, pre, k, DartAt(i, j - 1))
  }

  /** As Grid, for the fixed first added dart `d`; with one dart left, the sum and finishing tests. */
  function Cell(score: int, pre: seq<Dart>, k: nat, d: Dart): seq<seq<Dart>>
    requires 1 <= k
    decreases k, 0, 0, score
  {
    if k == 1 then
      (if Sum(pre + [d]) == score && IsFinishing(d) then [pre + [d]] else [])
    else
      Grid(score, pre + [d], k - 1, NUMBER_COUNT)
  }

  /** The accepted sequences of exactly `k` darts. */
  function Search(score: int, k: nat): seq<seq<Dart>>
    requires 1 <= k
  {
    Grid(score, [], k, NUMBER_COUNT)
  }

  /** The unsorted search result: one-dart, then two-dart, then three-dart finishes. */
  function Checkouts(score: int): seq<seq<Dart>> {
    if score <= 0 || score > MAX_CHECKOUT then []
    else Search(score, 1) + Search(score, 2) + Search(score, 3)
  }

  /** `x` completes `pre` by `k` darts of the domain into a finish of `score`. */
  predicate Extends(score: int, pre: seq<Dart>, k: nat, x: seq<Dart>) {
    1 <= k
    && |x| == |pre| + k
    && x[..|pre|] == pre
    && (forall t :: |pre| <= t < |x| ==> InDomain(x[t]))
    && Sum(x) == score
    && IsFinishing(x[|x| - 1])
  }

  lemma {:induction false} GridSound(score: int, pre: seq<Dart>, k: nat, i: nat)
    requires 1 <= k && i <= NUMBER_COUNT
    ensures forall x :: x in Grid(score, pre, k, i) ==> Extends(score, pre, k, x)
    decreases k, i, 4
  {
    if i > 0 {
      GridSound(score, pre, k, i - 1);
      RowSound(score, pre, k, i - 1, 3);
    }
  }

  lemma {:induction false} RowSound(score: int, pre: seq<Dart>, k: nat, i: nat, j: nat)
    requires 1 <= k && i < NUMBER_COUNT && j <= MARK_COUNT
    ensures forall x :: x in Row(score, pre, k, i, j) ==> Extends(score, pre, k, x)
    decreases k, i, j
  {
    if j > 0 {
      RowSound(score, pre, k, i, j - 1);
      CellSound(score, pre, k, DartAt(i, j - 1));
    }
  }

  lemma {:induction false} CellSound(score: int, pre: seq<Dart>, k: nat, d: Dart)
    requires 1 <= k && InDomain(d)
    ensures forall x :: x in Cell(score, pre, k, d) ==> Extends(score, pre, k, x)
    decreases k, 0, 0
  {
    if k == 1 {
      var x := pre + [d];
      assert x[..|pre|] == pre;
      assert x[|pre|] == d;
    } else {
      GridSound(score, pre + [d], k - 1, NUMBER_COUNT);
      forall x | x in Cell(score, pre, k, d)
        ensures Extends(score, pre, k, x)
      {
        assert x in Grid(score, pre + [d], k - 1, NUMBER_COUNT);
        assert x[..|pre| + 1] == pre + [d];
        assert x[..|pre|] == x[..|pre| + 1][..|pre|];
        assert x[|pre|] == x[..|pre| + 1][|pre|];
      }
    }
  }

  lemma {:induction false} GridComplete(score: int, pre: seq<Dart>, k: nat, i: nat, x: seq<Dart>)
    requires 1 <= k && i <= NUMBER_COUNT && Extends(score, pre, k, x)
    requires NumberIndex(x[|pre|].number) < i
    ensures x in Grid(score, pre, k, i)
    decreases k, i, 4
  {
    var d := x[|pre|];
    assert InDomain(d);
    if NumberIndex(d.number) == i - 1 {
      RowComplete(score, pre, k, i - 1, 3, x);
      assert x in Row(score, pre, k, i - 1, 3);
    } else {
      GridComplete(score, pre, k, i - 1, x);
      assert x in Grid(score, pre, k, i - 1);
    }
  }

  lemma {:induction false} RowComplete(score: int, pre: seq<Dart>, k: nat, i: nat, j: nat, x: seq<Dart>)
    requires 1 <= k && i < NUMBER_COUNT && j <= MARK_COUNT && Extends(score, pre, k, x)
    requires x[|pre|].number == NumberAt(i) && x[|pre|].marks - 1 < j
    ensures x in Row(score, pre, k, i, j)
    decreases k, i, j
  {
    if x[|pre|].marks - 1 == j - 1 {
      CellComplete(score, pre, k, DartAt(i, j - 1), x);
    } else {
      RowComplete(score, pre, k, i, j - 1, x);
    }
  }

  lemma {:induction false} CellComplete(score: int, pre: seq<Dart>, k: nat, d: Dart, x: seq<Dart>)
    requires 1 <= k && Extends(score, pre, k, x) && x[|pre|] == d
    ensures x in Cell(score, pre, k, d)
    decreases k, 0, 0
  {
    if k == 1 {
      assert x == x[..|pre|] + [x[|pre|]];
    } else {
      assert x[..|pre| + 1] == x[..|pre|] + [x[|pre|]];
      GridComplete(score, pre + [d], k - 1, NUMBER_COUNT, x);
    }
  }

  lemma SearchSound(score: int, k: nat)
    requires 1 <= k <= 3
    ensures forall x :: x in Search(score, k) ==> |x| == k && IsCheckout(score, x)
  {
    GridSound(score, [], k, NUMBER_COUNT);
  }

  /** Soundness: every listed sequence is a checkout of the score. */
  lemma CheckoutsSound(score: int)
    ensures forall x :: x in Checkouts(score) ==> IsCheckout(score, x)
  {
    SearchSound(score, 1);
    SearchSound(score, 2);
    SearchSound(score, 3);
  }

  /** Completeness: inside the guard, every checkout of the score is listed. */
  lemma CheckoutsComplete(score: int, x: seq<Dart>)
    requires 1 <= score <= MAX_CHECKOUT && IsCheckout(score, x)
    ensures x in Checkouts(score)
  {
    assert x[..0] == [];
    GridComplete(score, [], |x|, NUMBER_COUNT, x);
    var s1, s2, s3 := Search(score, 1), Search(score, 2), Search(score, 3);
    assert Checkouts(score) == s1 + s2 + s3;
    if |x| == 1 {
      assert x in s1;
    } else if |x| == 2 {
      assert x in s2;
    } else {
      assert x in s3;
    }
    InConcat(x, s1, s2, s3);
  }

  /** The search yields nothing outside 1..170, and something exactly when a checkout exists. */
  lemma CheckoutsNonEmpty(score: int)
    ensures Checkouts(score) != [] <==> 1 <= score <= MAX_CHECKOUT && exists x :: IsCheckout(score, x)
  {
    CheckoutsSound(score);
    if Checkouts(score) != [] {
      assert IsCheckout(score, Checkouts(score)[0]);
    }
    if 1 <= score <= MAX_CHECKOUT && exists x :: IsCheckout(score, x) {
      var x :| IsCheckout(score, x);
      CheckoutsComplete(score, x);
    }
  }

  lemma InConcat(x: seq<Dart>, s1: seq<seq<Dart>>, s2: seq<seq<Dart>>, s3: seq<seq<Dart>>)
    requires x in s1 || x in s2 || x in s3
    ensures x in s1 + s2 + s3
  {
  }

  /** Ordering: no listed sequence is longer than one listed after it. */
  lemma CheckoutsOrdered(score: int, a: nat, b: nat)
    requires a < b < |Checkouts(score)|
    ensures |Checkouts(score)[a]| <= |Checkouts(score)[b]|
  {
    var g1, g2, g3 := Search(score, 1), Search(score, 2), Search(score, 3);
    SearchSound(score, 1);
    SearchSound(score, 2);
    SearchSound(score, 3);
    assert Checkouts(score) == g1 + g2 + g3;
    Band(g1, g2, g3, a);
    Band(g1, g2, g3, b);
  }

  /** The length of the entry at `a`, read off the band of the concatenation it falls in. */
  lemma Band(g1: seq<seq<Dart>>, g2: seq<seq<Dart>>, g3: seq<seq<Dart>>, a: nat)
    requires forall x :: x in g1 ==> |x| == 1
    requires forall x :: x in g2 ==> |x| == 2
    requires forall x :: x in g3 ==> |x| == 3
    requires a < |g1 + g2 + g3|
    ensures |(g1 + g2 + g3)[a]| == if a < |g1| then 1 else if a < |g1| + |g2| then 2 else 3
  {
    var cs := g1 + g2 + g3;
    if a < |g1| {
      assert cs[a] == g1[a];
    } else if a < |g1| + |g2| {
      assert cs[a] == g2[a - |g1|];
    } else {
      assert cs[a] == g3[a - |g1| - |g2|];
    }
  }

  /** Every checkout is worth at least 2 (the cheapest is D1). */
  lemma CheckoutAtLeastTwo(score: int, x: seq<Dart>)
    requires IsCheckout(score, x)
    ensures score >= 2
  {
    var pre := x[..|x| - 1];
    assert x == pre + [x[|x| - 1]];
    SumAtLeastLength(pre);
  }

  lemma {:induction false} SumAtLeastLength(ds: seq<Dart>)
    requires forall t :: 0 <= t < |ds| ==> InDomain(ds[t])
    ensures Sum(ds) >= |ds|
  {
    if ds != [] {
      SumAtLeastLength(ds[..|ds| - 1]);
      var d := ds[|ds| - 1];
      assert InDomain(d);
      assert 1 <= d.number && 1 <= d.marks;
    }
  }

  lemma CheckoutsOfOneAndAboveGuard()
    ensures Checkouts(1) == []
    ensures Checkouts(171) == []
  {
    CheckoutsSound(1);
    if Checkouts(1) != [] {
      CheckoutAtLeastTwo(1, Checkouts(1)[0]);
    }
  }

  /** The guard also hides finishes that the domain allows: T25, T25, D11 adds up to 172. */
  lemma CheckoutAboveGuardExists()
    ensures IsCheckout(172, [Dart(25, 3), Dart(25, 3), Dart(11, 2)])
    ensures Checkouts(172) == []
  {
    var x := [Dart(25, 3), Dart(25, 3), Dart(11, 2)];
    assert x[..2][..1] == [Dart(25, 3)];
    assert x[..2] == [Dart(25, 3), Dart(25, 3)];
    assert [Dart(25, 3)][..0] == [];
    assert Sum([Dart(25, 3)]) == 75;
    assert Sum(x[..2]) == 150;
    assert forall t :: 0 <= t < |x| ==> InDomain(x[t]);
  }

  // ---------------------------------------------------------------------
  // Display texts
  // ---------------------------------------------------------------------

  /** GetDartDisplayText: "Bull" for either bull ring, else n, Dn or Tn, and "nxm" for other marks. */
  function DartDisplayText(number: int, marks: int): (s: string)
    ensures |s| > 0
    ensures number == 25 ==> s[0] == 'B'
    ensures number != 25 && marks == 2 ==> s[0] == 'D'
    ensures number != 25 && marks == 3 ==> s[0] == 'T'
  {
    if number == 25 then (if marks == 1 then "Bull" else "Bull")
    else if marks == 1 then IntToString(number)
    else if marks == 2 then "D" + IntToString(number)
    else if marks == 3 then "T" + IntToString(number)
    else IntToString(number) + "x" + IntToString(marks)
  }

  /** The display text of a combination: the darts' texts joined with " + ". */
  function DisplayText(ds: seq<Dart>): string {
    if ds == [] then ""
    else if |ds| == 1 then DartDisplayText(ds[0].number, ds[0].marks)
    else DisplayText(ds[..|ds| - 1]) + " + " + DartDisplayText(ds[|ds| - 1].number, ds[|ds| - 1].marks)
  }

  /** The combination the search adds for the darts `ds`. */
  function Render(ds: seq<Dart>): Combination {
    Combination(DisplayText(ds), Sum(ds), true)
  }

  /** The combinations of a list of dart sequences, one for one and in order. */
  function RenderAll(xs: seq<seq<Dart>>): seq<Combination> {
    seq(|xs|, t requires 0 <= t < |xs| => Render(xs[t]))
  }

  /** Within the domain, a dart's text determines the dart, except that both bull rings read "Bull". */
  lemma DartDisplayTextDistinguishes(a: Dart, b: Dart)
    requires InDomain(a) && InDomain(b)
    requires DartDisplayText(a.number, a.marks) == DartDisplayText(b.number, b.marks)
    ensures a == b || (a.number == 25 && b.number == 25)
  {
    TextLead(a);
    TextLead(b);
    if a.number != 25 {
      var s := DartDisplayText(a.number, a.marks);
      assert a.marks == b.marks;
      if a.marks == 1 {
        assert s == NatToString(a.number) == NatToString(b.number);
      } else {
        assert s[1..] == NatToString(a.number);
        assert s[1..] == NatToString(b.number);
      }
      NatToStringInjective(a.number, b.number);
    }
  }

  /** The first character of a dart's text tells a bull, a single, a double and a treble apart. */
  lemma TextLead(d: Dart)
    requires InDomain(d)
    ensures var s := DartDisplayText(d.number, d.marks);
      && (s[0] == 'B' <==> d.number == 25)
      && (d.number != 25 ==> (IsDigit(s[0]) <==> d.marks == 1))
      && (d.number != 25 ==> (s[0] == 'D' <==> d.marks == 2))
      && (d.number != 25 ==> (s[0] == 'T' <==> d.marks == 3))
      && (d.number != 25 ==> d.marks != 1 ==> s[1..] == NatToString(d.number))
      && (d.number != 25 ==> d.marks == 1 ==> s == NatToString(d.number))
  {
    NatToStringDigits(d.number);
  }

  lemma DartDisplayTextExamples()
    ensures DartDisplayText(20, 2) == "D20"
    ensures DartDisplayText(19, 3) == "T19"
    ensures DartDisplayText(7, 1) == "7"
    ensures DartDisplayText(25, 1) == "Bull" && DartDisplayText(25, 2) == "Bull"
  {
    assert NatToString(20) == NatToString(2) + ['0'];
    assert NatToString(19) == NatToString(1) + ['9'];
  }

  /** Every checkout of an admissible score shows up, rendered, in the result. */
  lemma CheckoutRendered(score: int, x: seq<Dart>)
    requires 1 <= score <= MAX_CHECKOUT && IsCheckout(score, x)
    ensures Render(x) in RenderAll(Checkouts(score))
  {
    CheckoutsComplete(score, x);
    var cs := Checkouts(score);
    var t :| 0 <= t < |cs| && cs[t] == x;
    assert RenderAll(cs)[t] == Render(x);
  }

  /** 40 is checked out by D20, which the result shows as "D20". */
  lemma FortyByDoubleTwenty()
    ensures IsCheckout(40, [Dart(20, 2)])
    ensures Render([Dart(20, 2)]) == Combination("D20", 40, true)
  {
    var x := [Dart(20, 2)];
    assert x[..0] == [];
    RenderOne(Dart(20, 2));
    DartDisplayTextExamples();
  }

  lemma SumAppend(ds: seq<Dart>, d: Dart)
    ensures Sum(ds + [d]) == Sum(ds) + Points(d)
  {
    assert (ds + [d])[..|ds|] == ds;
  }

  lemma RenderOne(d: Dart)
    ensures Sum([d]) == Points(d)
    ensures Render([d]) == Combination(DartDisplayText(d.number, d.marks), Points(d), true)
  {
    assert [d][..0] == [];
  }

  /**
   * The tables admit number 25 with three marks, worth 75, and its text is
   * "Bull" like the other two bull rings: 125 is offered as "Bull + Bull".
   */
  lemma TrebleBullCounted()
    ensures IsCheckout(125, [Dart(25, 3), Dart(25, 2)])
    ensures Render([Dart(25, 3), Dart(25, 2)]) == Combination("Bull + Bull", 125, true)
  {
    var x := [Dart(25, 3), Dart(25, 2)];
    assert x[..1] == [Dart(25, 3)];
    assert x[..1][..0] == [];
  }

  /** Every rendered checkout of `score` carries `score` points and is marked possible. */
  lemma RenderedPoints(score: int)
    ensures forall t :: 0 <= t < |RenderAll(Checkouts(score))| ==>
      RenderAll(Checkouts(score))[t].totalPoints == score && RenderAll(Checkouts(score))[t].isPossible
  {
    CheckoutsSound(score);
    var cs := Checkouts(score);
    forall t | 0 <= t < |RenderAll(cs)|
      ensures RenderAll(cs)[t].totalPoints == score && RenderAll(cs)[t].isPossible
    {
      assert cs[t] in cs;
    }
  }

  // ---------------------------------------------------------------------
  // Facts the loops use: each states one loop step in the loop's own terms
  // ---------------------------------------------------------------------

  lemma Assoc<T>(a: seq<T>, b: seq<T>, c: seq<T>)
    ensures a + (b + c) == a + b + c
  {
  }

  /** Appending one sequence of darts appends its combination. */
  lemma RenderAllSnoc(xs: seq<seq<Dart>>, x: seq<Dart>)
    ensures RenderAll(xs + [x]) == RenderAll(xs) + [Render(x)]
  {
    RenderAllConcat(xs, [x]);
  }

  /** Rendering distributes over concatenation. */
  lemma RenderAllConcat(xs: seq<seq<Dart>>, ys: seq<seq<Dart>>)
    ensures RenderAll(xs + ys) == RenderAll(xs) + RenderAll(ys)
  {
    var l, r := RenderAll(xs + ys), RenderAll(xs) + RenderAll(ys);
    assert |l| == |r|;
    forall t | 0 <= t < |l|
      ensures l[t] == r[t]
    {
      if t < |xs| {
        assert (xs + ys)[t] == xs[t];
      } else {
        assert (xs + ys)[t] == ys[t - |xs|];
      }
    }
  }

  /** The text and points of a first dart read from the tables. */
  lemma FirstText(d: Dart, number: int, marks: int)
    requires d == Dart(number, marks)
    ensures DartDisplayText(number, marks) == DisplayText([d]) && number * marks == Sum([d])
  {
    assert [d][..0] == [];
  }

  lemma FirstRender(d: Dart, number: int, marks: int)
    requires d == Dart(number, marks)
    ensures Render([d]) == Combination(DartDisplayText(number, marks), number * marks, true)
  {
    FirstText(d, number, marks);
  }

  /** The text and points after one more dart: the text grows by " + " and the dart's text. */
  lemma NextText(pre: seq<Dart>, preText: string, prePoints: int, d: Dart, number: int, marks: int)
    requires |pre| >= 1 && preText == DisplayText(pre) && prePoints == Sum(pre)
    requires d == Dart(number, marks)
    ensures preText + " + " + DartDisplayText(number, marks) == DisplayText(pre + [d])
    ensures prePoints + number * marks == Sum(pre + [d])
  {
    assert (pre + [d])[..|pre|] == pre;
    SumAppend(pre, d);
  }

  lemma NextRender(pre: seq<Dart>, preText: string, prePoints: int, d: Dart, number: int, marks: int)
    requires |pre| >= 1 && preText == DisplayText(pre) && prePoints == Sum(pre)
    requires d == Dart(number, marks)
    ensures Render(pre + [d])
         == Combination(preText + " + " + DartDisplayText(number, marks), prePoints + number * marks, true)
  {
    NextText(pre, preText, prePoints, d, number, marks);
  }

  /** Adding a found sequence of darts adds its combination. */
  lemma Collect(combos: seq<Combination>, found: seq<seq<Dart>>, r: seq<Combination>,
                x: seq<Dart>, c: Combination)
    requires r == combos + RenderAll(found) && c == Render(x)
    ensures r + [c] == combos + RenderAll(found + [x])
  {
    RenderAllSnoc(found, x);
    Assoc(combos, RenderAll(found), [c]);
  }

  /** Adding everything an inner search found. */
  lemma CollectAll(combos: seq<Combination>, found: seq<seq<Dart>>, rest: seq<seq<Dart>>,
                   r0: seq<Combination>, r1: seq<Combination>)
    requires r0 == combos + RenderAll(found) && r1 == r0 + RenderAll(rest)
    ensures r1 == combos + RenderAll(found + rest)
  {
    RenderAllConcat(found, rest);
    Assoc(combos, RenderAll(found), RenderAll(rest));
  }

  /** The innermost loops' step, after the darts `pre`: the last dart is checked and, if accepted, added. */
  lemma FinishStep(score: int, pre: seq<Dart>, prePoints: int, k: nat, l: nat, number: int, marks: int,
                   fk: seq<seq<Dart>>, found: seq<seq<Dart>>)
    requires k < NUMBER_COUNT && l < MARK_COUNT
    requires number == VALID_NUMBERS[k] && marks == VALID_MARKS[l] && prePoints == Sum(pre)
    requires found == fk + Row(score, pre, 1, k, l)
    ensures prePoints + number * marks == score && (marks == 2 || (number == 25 && marks == 1))
            ==> found + [pre + [Dart(number, marks)]] == fk + Row(score, pre, 1, k, l + 1)
    ensures !(prePoints + number * marks == score && (marks == 2 || (number == 25 && marks == 1)))
            ==> found == fk + Row(score, pre, 1, k, l + 1)
  {
    var d := DartAt(k, l);
    assert d == Dart(number, marks);
    SumAppend(pre, d);
    var cell: seq<seq<Dart>> := if Sum(pre + [d]) == score && IsFinishing(d) then [pre + [d]] else [];
    assert Row(score, pre, 1, k, l + 1) == Row(score, pre, 1, k, l) + cell;
    Assoc(fk, Row(score, pre, 1, k, l), cell);
  }

  /** FinishStep with no dart before. */
  lemma FirstFinishStep(score: int, i: nat, j: nat, number: int, marks: int,
                        fi: seq<seq<Dart>>, found: seq<seq<Dart>>)
    requires i < NUMBER_COUNT && j < MARK_COUNT
    requires number == VALID_NUMBERS[i] && marks == VALID_MARKS[j]
    requires found == fi + Row(score, [], 1, i, j)
    ensures number * marks == score && (marks == 2 || (number == 25 && marks == 1))
            ==> found + [[Dart(number, marks)]] == fi + Row(score, [], 1, i, j + 1)
    ensures !(number * marks == score && (marks == 2 || (number == 25 && marks == 1)))
            ==> found == fi + Row(score, [], 1, i, j + 1)
  {
    assert [] + [Dart(number, marks)] == [Dart(number, marks)];
    FinishStep(score, [], 0, i, j, number, marks, fi, found);
  }

  /** The outer loops' step: a dart `Dart(number, marks)` after `pre` contributes all its completions. */
  lemma OuterStep(score: int, pre: seq<Dart>, m: nat, k: nat, l: nat, number: int, marks: int,
                  fk: seq<seq<Dart>>, found: seq<seq<Dart>>)
    requires 2 <= m && k < NUMBER_COUNT && l < MARK_COUNT
    requires number == VALID_NUMBERS[k] && marks == VALID_MARKS[l]
    requires found == fk + Row(score, pre, m, k, l)
    ensures found + Grid(score, pre + [Dart(number, marks)], m - 1, NUMBER_COUNT)
         == fk + Row(score, pre, m, k, l + 1)
  {
    assert DartAt(k, l) == Dart(number, marks);
    Assoc(fk, Row(score, pre, m, k, l), Grid(score, pre + [Dart(number, marks)], m - 1, NUMBER_COUNT));
  }

  /** OuterStep with no dart before. */
  lemma FirstOuterStep(score: int, m: nat, i: nat, j: nat, number: int, marks: int,
                       fi: seq<seq<Dart>>, found: seq<seq<Dart>>)
    requires 2 <= m && i < NUMBER_COUNT && j < MARK_COUNT
    requires number == VALID_NUMBERS[i] && marks == VALID_MARKS[j]
    requires found == fi + Row(score, [], m, i, j)
    ensures found + Grid(score, [Dart(number, marks)], m - 1, NUMBER_COUNT)
         == fi + Row(score, [], m, i, j + 1)
  {
    assert [] + [Dart(number, marks)] == [Dart(number, marks)];
    OuterStep(score, [], m, i, j, number, marks, fi, found);
  }

  /** Closing a row: the grid grows by it. */
  lemma GridStep(score: int, pre: seq<Dart>, m: nat, i: nat, fi: seq<seq<Dart>>, found: seq<seq<Dart>>)
    requires 1 <= m && i < NUMBER_COUNT
    requires fi == Grid(score, pre, m, i) && found == fi + Row(score, pre, m, i, MARK_COUNT)
    ensures found == Grid(score, pre, m, i + 1)
  {
  }
}

/**
 * The calculator itself: the three searches, each proved to append exactly
 * the rendering of its part of CheckoutSpec.Checkouts, and the entry points
 * that guard, combine and sort their results.
 */
module CheckoutCalculator {
  import opened CheckoutSpec

  // ---------------------------------------------------------------------
  // List.OrderBy(c => c.TotalPoints): a stable sort on the points
  // ---------------------------------------------------------------------

  predicate SortedByPoints(cs: seq<Combination>) {
    forall a, b :: 0 <= a < b < |cs| ==> cs[a].totalPoints <= cs[b].totalPoints
  }

  /** Places `c` after every element whose points do not exceed its own. */
  function InsertByPoints(c: Combination, cs: seq<Combination>): seq<Combination> {
    if cs == [] then [c]
    else if c.totalPoints < cs[0].totalPoints then [c] + cs
    else [cs[0]] + InsertByPoints(c, cs[1..])
  }

  /** Inserts the elements one by one, in order, so that equal keys keep their order. */
  function OrderByPoints(cs: seq<Combination>): seq<Combination> {
    if cs == [] then [] else InsertByPoints(cs[|cs| - 1], OrderByPoints(cs[..|cs| - 1]))
  }

  lemma {:induction false} InsertPermutes(c: Combination, cs: seq<Combination>)
    ensures multiset(InsertByPoints(c, cs)) == multiset(cs) + multiset{c}
    decreases |cs|
  {
    if cs != [] && c.totalPoints >= cs[0].totalPoints {
      InsertPermutes(c, cs[1..]);
      assert cs == [cs[0]] + cs[1..];
    }
  }

  lemma {:induction false} InsertSorted(c: Combination, cs: seq<Combination>)
    requires SortedByPoints(cs)
    ensures SortedByPoints(InsertByPoints(c, cs))
    decreases |cs|
  {
    if cs != [] && c.totalPoints >= cs[0].totalPoints {
      var r := InsertByPoints(c, cs[1..]);
      InsertSorted(c, cs[1..]);
      InsertPermutes(c, cs[1..]);
      forall t | 0 <= t < |r|
        ensures cs[0].totalPoints <= r[t].totalPoints
      {
        assert r[t] in multiset(cs[1..]) + multiset{c};
        if r[t] != c {
          var u :| 0 <= u < |cs[1..]| && cs[1..][u] == r[t];
          assert cs[u + 1] == r[t];
        }
      }
      var ins := [cs[0]] + r;
      forall a, b | 0 <= a < b < |ins|
        ensures ins[a].totalPoints <= ins[b].totalPoints
      {
        if a > 0 {
          assert ins[a] == r[a - 1] && ins[b] == r[b - 1];
        } else {
          assert ins[b] == r[b - 1];
        }
      }
    }
  }

  /** OrderBy returns its input sorted by points and rearranged only. */
  lemma {:induction false} OrderBySortedPermutation(cs: seq<Combination>)
    ensures SortedByPoints(OrderByPoints(cs))
    ensures multiset(OrderByPoints(cs)) == multiset(cs)
    decreases |cs|
  {
    if cs != [] {
      var front := cs[..|cs| - 1];
      OrderBySortedPermutation(front);
      InsertSorted(cs[|cs| - 1], OrderByPoints(front));
      InsertPermutes(cs[|cs| - 1], OrderByPoints(front));
      assert cs == front + [cs[|cs| - 1]];
    }
  }

  /** Inserting an element whose points are the largest appends it. */
  lemma {:induction false} InsertLast(c: Combination, cs: seq<Combination>)
    requires forall t :: 0 <= t < |cs| ==> cs[t].totalPoints <= c.totalPoints
    ensures InsertByPoints(c, cs) == cs + [c]
    decreases |cs|
  {
    if cs != [] {
      InsertLast(c, cs[1..]);
      assert cs == [cs[0]] + cs[1..];
    }
  }

  /** Stability, in the case the calculator needs: when all points agree, the order is kept. */
  lemma {:induction false} OrderByEqualPoints(cs: seq<Combination>, p: int)
    requires forall t :: 0 <= t < |cs| ==> cs[t].totalPoints == p
    ensures OrderByPoints(cs) == cs
    decreases |cs|
  {
    if cs != [] {
      var front := cs[..|cs| - 1];
      OrderByEqualPoints(front, p);
      InsertLast(cs[|cs| - 1], front);
      assert cs == front + [cs[|cs| - 1]];
    }
  }

  /** One dart: every double, and the single or double bull, worth exactly `score`. */
  method FindOneDartCheckouts(score: int, combos: seq<Combination>) returns (r: seq<Combination>)
    ensures r == combos + RenderAll(Search(score, 1))
  {
    r := combos;
    ghost var found: seq<seq<Dart>> := [];
    for i := 0 to |VALID_NUMBERS|
      invariant found == Grid(score, [], 1, i)
      invariant r == combos + RenderAll(found)
    {
      ghost var fi := found;
      for j := 0 to |VALID_MARKS|
        invariant found == fi + Row(score, [], 1, i, j)
        invariant r == combos + RenderAll(found)
      {
        var number, marks := VALID_NUMBERS[i], VALID_MARKS[j];
        var points := number * marks;
        FirstFinishStep(score, i, j, number, marks, fi, found);
        if points == score {
          if marks == 2 || (number == 25 && marks == 1) {
            ghost var d := Dart(number, marks);
            FirstRender(d, number, marks);
            Collect(combos, found, r, [d], Combination(DartDisplayText(number, marks), points, true));
            r := r + [Combination(DartDisplayText(number, marks), points, true)];
            found := found + [[d]];
          }
        }
      }
      GridStep(score, [], 1, i, fi, found);
    }
  }

  /**
   * The two innermost loops of the two- and three-dart searches: after the
   * darts `pre`, whose text and points are given, every finishing last dart
   * that brings the total to `score`.
   */
  method AddFinishingDarts(score: int, ghost pre: seq<Dart>, preText: string, prePoints: int,
                           combos: seq<Combination>) returns (r: seq<Combination>)
    requires |pre| >= 1 && preText == DisplayText(pre) && prePoints == Sum(pre)
    ensures r == combos + RenderAll(Grid(score, pre, 1, NUMBER_COUNT))
  {
    r := combos;
    ghost var found: seq<seq<Dart>> := [];
    for k := 0 to |VALID_NUMBERS|
      invariant found == Grid(score, pre, 1, k)
      invariant r == combos + RenderAll(found)
    {
      ghost var fk := found;
      for l := 0 to |VALID_MARKS|
        invariant found == fk + Row(score, pre, 1, k, l)
        invariant r == combos + RenderAll(found)
      {
        var number, marks := VALID_NUMBERS[k], VALID_MARKS[l];
        var total := prePoints + number * marks;
        FinishStep(score, pre, prePoints, k, l, number, marks, fk, found);
        if total == score {
          if marks == 2 || (number == 25 && marks == 1) {
            ghost var d := Dart(number, marks);
            NextRender(pre, preText, prePoints, d, number, marks);
            Collect(combos, found, r, pre + [d],
                    Combination(preText + " + " + DartDisplayText(number, marks), total, true));
            r := r + [Combination(preText + " + " + DartDisplayText(number, marks), total, true)];
            found := found + [pre + [d]];
          }
        }
      }
      GridStep(score, pre, 1, k, fk, found);
    }
  }

  /** Two darts: any first dart, then a finishing second dart. */
  method FindTwoDartCheckouts(score: int, combos: seq<Combination>) returns (r: seq<Combination>)
    ensures r == combos + RenderAll(Search(score, 2))
  {
    r := combos;
    ghost var found: seq<seq<Dart>> := [];
    for i := 0 to |VALID_NUMBERS|
      invariant found == Grid(score, [], 2, i)
      invariant r == combos + RenderAll(found)
    {
      ghost var fi := found;
      for j := 0 to |VALID_MARKS|
        invariant found == fi + Row(score, [], 2, i, j)
        invariant r == combos + RenderAll(found)
      {
        var number, marks := VALID_NUMBERS[i], VALID_MARKS[j];
        ghost var d := Dart(number, marks);
        FirstText(d, number, marks);
        ghost var rest := Grid(score, [d], 1, NUMBER_COUNT);
        ghost var r0 := r;
        r := AddFinishingDarts(score, [d], DartDisplayText(number, marks), number * marks, r);
        FirstOuterStep(score, 2, i, j, number, marks, fi, found);
        CollectAll(combos, found, rest, r0, r);
        found := found + rest;
      }
      GridStep(score, [], 2, i, fi, found);
    }
  }

  /** The middle loops of the three-dart search: any second dart after `pre`, then a finishing third. */
  method AddSecondDarts(score: int, ghost first: Dart, preText: string, prePoints: int,
                        combos: seq<Combination>) returns (r: seq<Combination>)
    requires preText == DisplayText([first]) && prePoints == Sum([first])
    ensures r == combos + RenderAll(Grid(score, [first], 2, NUMBER_COUNT))
  {
    r := combos;
    ghost var found: seq<seq<Dart>> := [];
    for k := 0 to |VALID_NUMBERS|
      invariant found == Grid(score, [first], 2, k)
      invariant r == combos + RenderAll(found)
    {
      ghost var fk := found;
      for l := 0 to |VALID_MARKS|
        invariant found == fk + Row(score, [first], 2, k, l)
        invariant r == combos + RenderAll(found)
      {
        var number, marks := VALID_NUMBERS[k], VALID_MARKS[l];
        ghost var d := Dart(number, marks);
        NextText([first], preText, prePoints, d, number, marks);
        ghost var rest := Grid(score, [first] + [d], 1, NUMBER_COUNT);
        ghost var r0 := r;
        r := AddFinishingDarts(score, [first] + [d], preText + " + " + DartDisplayText(number, marks),
                               prePoints + number * marks, r);
        OuterStep(score, [first], 2, k, l, number, marks, fk, found);
        CollectAll(combos, found, rest, r0, r);
        found := found + rest;
      }
      GridStep(score, [first], 2, k, fk, found);
    }
  }

  /** Three darts: any first and second dart, then a finishing third dart. */
  method FindThreeDartCheckouts(score: int, combos: seq<Combination>) returns (r: seq<Combination>)
    ensures r == combos + RenderAll(Search(score, 3))
  {
    r := combos;
    ghost var found: seq<seq<Dart>> := [];
    for i := 0 to |VALID_NUMBERS|
      invariant found == Grid(score, [], 3, i)
      invariant r == combos + RenderAll(found)
    {
      ghost var fi := found;
      for j := 0 to |VALID_MARKS|
        invariant found == fi + Row(score, [], 3, i, j)
        invariant r == combos + RenderAll(found)
      {
        var number, marks := VALID_NUMBERS[i], VALID_MARKS[j];
        ghost var d := Dart(number, marks);
        FirstText(d, number, marks);
        ghost var rest := Grid(score, [d], 2, NUMBER_COUNT);
        ghost var r0 := r;
        r := AddSecondDarts(score, d, DartDisplayText(number, marks), number * marks, r);
        FirstOuterStep(score, 3, i, j, number, marks, fi, found);
        CollectAll(combos, found, rest, r0, r);
        found := found + rest;
      }
      GridStep(score, [], 3, i, fi, found);
    }
  }

  // ---------------------------------------------------------------------
  // The public entry points
  // ---------------------------------------------------------------------

  /**
   * All checkouts of `remainingScore`: none outside 1..170, otherwise the
   * one-, two- and three-dart finishes in search order, sorted by points.
   */
  method GetCheckoutCombinations(remainingScore: int) returns (r: seq<Combination>)
    ensures r == RenderAll(Checkouts(remainingScore))
  {
    RenderedPoints(remainingScore);
    var combos: seq<Combination> := [];
    if remainingScore <= 0 || remainingScore > 170 {
      return combos;
    }
    combos := FindOneDartCheckouts(remainingScore, combos);
    combos := FindTwoDartCheckouts(remainingScore, combos);
    combos := FindThreeDartCheckouts(remainingScore, combos);
    var s1, s2, s3 := Search(remainingScore, 1), Search(remainingScore, 2), Search(remainingScore, 3);
    RenderAllConcat(s1, s2);
    RenderAllConcat(s1 + s2, s3);
    assert combos == RenderAll(Checkouts(remainingScore));
    OrderByEqualPoints(combos, remainingScore);
    r := OrderByPoints(combos);
  }

  /** Whether any checkout exists: exactly for the admissible scores that have a finish. */
  method CanCheckout(remainingScore: int) returns (b: bool)
    ensures b <==> 1 <= remainingScore <= MAX_CHECKOUT && exists x :: IsCheckout(remainingScore, x)
  {
    var combos := GetCheckoutCombinations(remainingScore);
    CheckoutsNonEmpty(remainingScore);
    b := |combos| > 0;
  }
}
