# Darts scoring engine — a Dafny model

This project models the scoring engine of the ProyectoFinal darts app, a C#
MAUI application. The model contains:

- a single dart (`DartThrow`) and its validity rule;
- the three-dart turn buffer (`Round`);
- the exhaustive X01 checkout search (`CheckoutCalculator`);
- the per-leg player (`Player`);
- the orchestrating game (`DartsGame`): the roster, the throw pipeline, the X01
  commit with the bust rule, the Cricket marks, closed numbers and overmarks,
  the cooldown and turn rotation, winner detection and reset;
- the Cricket scoreboard row (`CricketPlayerInfo`);
- a user's long-lived statistics (`UserStatistics`);
- the in-memory half of the user registry (`UserService`).

Modules and files:

| file | module | models |
|---|---|---|
| wrappers.dfy | Wrappers | `Option` |
| modes.dfy | Modes | `GameMode` and the start score of a mode |
| text.dfy | Text | `int.ToString()`, `string.Join`, case-insensitive comparison |
| throws.dfy | Throws | `DartThrow` |
| rounds.dfy | Rounds | `Round` |
| checkout.dfy | CheckoutSpec, CheckoutCalculator | the search as a specification, the loops as methods, `OrderBy` |
| players.dfy | Players | `Player` |
| cricket.dfy | Cricket | boards, `ProcessCricketScore`, `CalculateThrowPoints` |
| rules.dfy | GameRules | the pure rules of `DartsGame`: the X01 commit, removal index, winners, suggestions, leg results |
| game.dfy | Game | `DartsGame` |
| cricket_view.dfy | CricketView | `CricketPlayerInfo` |
| statistics.dfy | Statistics | `UserStatistics` |
| users.dfy | Users | `User` and `UserService` |

Mutable objects are classes with `modifies` frames:

- `DartThrow`, `Round`, `Player`, `DartsGame`, `CricketPlayerInfo`,
  `UserStatistics` and `UserService`.
- `Round` keeps its three throws in an `array` and owns them through a `Repr`
  footprint.
- `DartsGame` keeps its players as a `seq<Player>` and the rest of its state
  as a `GameData` value. That value holds the mode, the turn index, the
  per-player Cricket boards and closed sets, the round number, the checkout
  suggestions and the cooldown.

Each method is stated against a function of the old state. For example,
`DartsGame.AddThrow` ends in exactly the state `AfterDart` computes. The
properties are proved as lemmas about those functions.

## Model

| member | source | states |
|---|---|---|
| Modes.StartScore | ProyectoFinal/Models/DartsGame.cs:233-236 | a player without an explicit score starts on 501 in X01 and on 0 in Cricket |
| Throws.IsValidThrow | ProyectoFinal/Models/DartThrow.cs:97-124 | an accepted number lies in 0..50 with 1..3 marks, and a miss or a bull takes at most 2 marks |
| Throws.ValidThrowPoints | ProyectoFinal/Models/DartThrow.cs:88-124 | every throw the rule accepts is worth between 0 and 100, and 0 exactly for a miss |
| Throws.DartThrow.constructor | ProyectoFinal/Models/DartThrow.cs:12-17 | the constructor stores both values and leaves the throw invalid whatever they are |
| Throws.DartThrow.Validate | ProyectoFinal/Models/DartThrow.cs:97-124 | afterwards the flag equals the rule: 0..20, 25 or 50 with marks 1..3, both bulls only 1 or 2, a miss only 1 |
| Throws.DartThrow.SetNumber | ProyectoFinal/Models/DartThrow.cs:19-33 | a new number revalidates; assigning the current number changes nothing, not even the flag |
| Throws.DartThrow.SetMarks | ProyectoFinal/Models/DartThrow.cs:35-49 | a new marks value revalidates; assigning the current value changes nothing |
| Throws.DartThrow.Points | ProyectoFinal/Models/DartThrow.cs:88-95 | 0 for an invalid throw, number × marks for a valid one, always within 0..100 |
| Throws.DartThrow.Clear | ProyectoFinal/Models/DartThrow.cs:126-130 | the throw becomes (0, 0), invalid and worth 0 |
| Rounds.TotalUpdate | ProyectoFinal/Models/Round.cs:78-92 | replacing one slot changes the round total by the difference of the two slots' points |
| Rounds.TotalOfPrefix | ProyectoFinal/Models/Round.cs:78-92 | when exactly the slots below the cursor are valid, the total is the total of those slots |
| Rounds.AddThenUndoTotal | ProyectoFinal/Models/Round.cs:109-144 | a successful add followed by an undo restores the round total |
| Rounds.Round.constructor | ProyectoFinal/Models/Round.cs:13-25 | three distinct empty invalid slots, cursor 0, total 0 |
| Rounds.Round.IsComplete | ProyectoFinal/Models/Round.cs:76 | complete exactly when the cursor is 3 |
| Rounds.Round.CurrentThrow | ProyectoFinal/Models/Round.cs:74 | null exactly when the round is complete; otherwise the slot under the cursor, which is not yet valid |
| Rounds.Round.AddThrow | ProyectoFinal/Models/Round.cs:109-125 | succeeds exactly when the round is open and the pair is valid; the pair is written into the cursor slot either way; the cursor advances by one only on success; a complete round is left alone |
| Rounds.Round.ClearCurrentThrow | ProyectoFinal/Models/Round.cs:127-133 | the slot under the cursor is cleared; the cursor and the total are unchanged |
| Rounds.Round.UndoLastThrow | ProyectoFinal/Models/Round.cs:135-144 | no-op at cursor 0; otherwise the cursor goes down by one, that slot is cleared and its points leave the total |
| Rounds.Round.ClearRound | ProyectoFinal/Models/Round.cs:146-155 | all three slots empty, cursor 0, total 0 |
| Rounds.Round.TotalPoints | ProyectoFinal/Models/Round.cs:78-92 | the foreach sum equals the total of the slots, and the total of the slots below the cursor |
| CheckoutSpec.Tables | ProyectoFinal/Models/CheckoutCalculator.cs:62-65 | the search ranges over 1..20 and 25, with marks 1..3 |
| CheckoutSpec.InDomainIff | ProyectoFinal/Models/CheckoutCalculator.cs:62-65 | a dart of the search is exactly a number of the number table with marks of the marks table |
| CheckoutSpec.GridSound | ProyectoFinal/Models/CheckoutCalculator.cs:85-183 | every sequence the loop nest accepts extends its prefix by darts of the domain, sums to the score and ends on a double or a single bull |
| CheckoutSpec.RowSound | ProyectoFinal/Models/CheckoutCalculator.cs:85-183 | the same for one number of the outer loop |
| CheckoutSpec.CellSound | ProyectoFinal/Models/CheckoutCalculator.cs:85-183 | the same for one fixed dart |
| CheckoutSpec.GridComplete | ProyectoFinal/Models/CheckoutCalculator.cs:85-183 | every such extension whose next dart comes before the loop's position is listed |
| CheckoutSpec.RowComplete | ProyectoFinal/Models/CheckoutCalculator.cs:85-183 | the same for one number of the outer loop |
| CheckoutSpec.CellComplete | ProyectoFinal/Models/CheckoutCalculator.cs:85-183 | the same for one fixed dart |
| CheckoutSpec.SearchSound | ProyectoFinal/Models/CheckoutCalculator.cs:85-183 | the k-dart search yields only k-dart checkouts of the score |
| CheckoutSpec.CheckoutsSound | ProyectoFinal/Models/CheckoutCalculator.cs:85-183 | every listed sequence is a 1–3 dart checkout: domain darts, sum equal to the score, a finishing last dart |
| CheckoutSpec.CheckoutsComplete | ProyectoFinal/Models/CheckoutCalculator.cs:67-183 | for scores 1..170 every checkout of the score is listed |
| CheckoutSpec.CheckoutsNonEmpty | ProyectoFinal/Models/CheckoutCalculator.cs:67-83 | the list is non-empty exactly when the score is in 1..170 and has a checkout |
| CheckoutSpec.CheckoutsOrdered | ProyectoFinal/Models/CheckoutCalculator.cs:77-82 | one-dart finishes come before two-dart ones, which come before three-dart ones |
| CheckoutSpec.CheckoutAtLeastTwo | ProyectoFinal/Models/CheckoutCalculator.cs:85-183 | no checkout is worth less than 2, the cheapest being D1 |
| CheckoutSpec.SumAtLeastLength | ProyectoFinal/Models/CheckoutCalculator.cs:62-65 | because every dart of the domain is worth at least 1, k darts are worth at least k |
| CheckoutSpec.CheckoutsOfOneAndAboveGuard | ProyectoFinal/Models/CheckoutCalculator.cs:71-74 | 1 and 171 have no checkouts |
| CheckoutSpec.CheckoutAboveGuardExists | ProyectoFinal/Models/CheckoutCalculator.cs:71-74 | the guard hides a finish the domain allows: T25 T25 D11 makes 172, yet 172 lists nothing |
| CheckoutSpec.DartDisplayText | ProyectoFinal/Models/CheckoutCalculator.cs:185-199 | the text is never empty, starts with 'B' for a bull, with 'D' for a double and with 'T' for a treble |
| CheckoutSpec.DartDisplayTextDistinguishes | ProyectoFinal/Models/CheckoutCalculator.cs:185-199 | within the domain a dart's text determines the dart, except that both bull rings read "Bull" |
| CheckoutSpec.TextLead | ProyectoFinal/Models/CheckoutCalculator.cs:185-199 | the text is "Bull" for 25, the bare number for a single, "D" or "T" and the number for a double or treble |
| CheckoutSpec.DartDisplayTextExamples | ProyectoFinal/Models/CheckoutCalculator.cs:185-199 | D20, T19, 7, and Bull for both bull marks |
| CheckoutSpec.CheckoutRendered | ProyectoFinal/Models/CheckoutCalculator.cs:85-183 | every checkout of an admissible score appears, rendered, in the result |
| CheckoutSpec.FortyByDoubleTwenty | ProyectoFinal/Models/CheckoutCalculator.cs:201-204 | 40 is finished by D20, shown as "D20" with 40 points |
| CheckoutSpec.TrebleBullCounted | ProyectoFinal/Models/CheckoutCalculator.cs:143-199 | T25 followed by D25 is a 125 checkout, shown as "Bull + Bull" |
| CheckoutSpec.RenderedPoints | ProyectoFinal/Models/CheckoutCalculator.cs:85-183 | every rendered combination carries the score as its points and is marked possible |
| CheckoutSpec.RenderAllConcat | ProyectoFinal/Models/CheckoutCalculator.cs:67-83 | rendering the three searches' results joins the three lists in order |
| CheckoutCalculator.InsertPermutes | ProyectoFinal/Models/CheckoutCalculator.cs:82 | one insertion step of the stable sort only adds the inserted element |
| CheckoutCalculator.InsertSorted | ProyectoFinal/Models/CheckoutCalculator.cs:82 | one insertion step keeps the list sorted by points |
| CheckoutCalculator.OrderBySortedPermutation | ProyectoFinal/Models/CheckoutCalculator.cs:82 | OrderBy returns its input sorted by points and rearranged only |
| CheckoutCalculator.InsertLast | ProyectoFinal/Models/CheckoutCalculator.cs:82 | an element with the largest points is appended |
| CheckoutCalculator.OrderByEqualPoints | ProyectoFinal/Models/CheckoutCalculator.cs:77-82 | stability: when every element has the same points, the order is kept |
| CheckoutCalculator.FindOneDartCheckouts | ProyectoFinal/Models/CheckoutCalculator.cs:85-107 | appends exactly the rendered one-dart checkouts, in loop order |
| CheckoutCalculator.AddFinishingDarts | ProyectoFinal/Models/CheckoutCalculator.cs:109-183 | the innermost two loops append exactly the finishing last darts after the given prefix |
| CheckoutCalculator.FindTwoDartCheckouts | ProyectoFinal/Models/CheckoutCalculator.cs:109-141 | appends exactly the rendered two-dart checkouts, in loop order |
| CheckoutCalculator.AddSecondDarts | ProyectoFinal/Models/CheckoutCalculator.cs:143-183 | the middle loops append exactly the three-dart checkouts starting with the given first dart |
| CheckoutCalculator.FindThreeDartCheckouts | ProyectoFinal/Models/CheckoutCalculator.cs:143-183 | appends exactly the rendered three-dart checkouts, in loop order |
| CheckoutCalculator.GetCheckoutCombinations | ProyectoFinal/Models/CheckoutCalculator.cs:67-83 | returns the rendered checkouts: one-dart, then two-dart, then three-dart, and nothing outside 1..170 |
| CheckoutCalculator.CanCheckout | ProyectoFinal/Models/CheckoutCalculator.cs:201-204 | true exactly when the score is in 1..170 and has a checkout |
| Players.Player.constructor | ProyectoFinal/Models/Player.cs:25-30 | name, score and account link as given; every statistic 0 |
| Players.Player.IsRegisteredUser | ProyectoFinal/Models/Player.cs:190 | true exactly when the player carries a non-empty user id |
| Players.Player.AddThrow | ProyectoFinal/Models/Player.cs:195-201 | one more throw and the points added; nothing else changes |
| Players.Player.AddCricketMarks | ProyectoFinal/Models/Player.cs:203-206 | the marks added; nothing else changes |
| Players.Player.CompleteRound | ProyectoFinal/Models/Player.cs:212-215 | one more round; nothing else changes |
| Players.Player.RecordLegWin | ProyectoFinal/Models/Player.cs:221-226 | one more won leg and one more played leg, so won ≤ played is kept |
| Players.Player.RecordLegLoss | ProyectoFinal/Models/Player.cs:228-232 | one more played leg only |
| Players.Player.ResetStats | ProyectoFinal/Models/Player.cs:276-287 | every statistic 0; name, score and account link unchanged |
| Players.Player.WinPercentage | ProyectoFinal/Models/Player.cs:264-274 | 0 with no legs played, within 0..100, 100 exactly when every leg was won, 0 exactly when none was |
| Players.Ratio | ProyectoFinal/Models/Player.cs:264-274 | won / played × 100 lies in 0..100, with 100 and 0 exactly at the extremes |
| Cricket.CricketOrderListsNumbers | ProyectoFinal/Models/DartsGame.cs:11-12 | the source's array lists exactly the cricket numbers, in ascending order |
| Cricket.ZeroMarks | ProyectoFinal/Models/DartsGame.cs:50-61 | a fresh board has an entry 0 for exactly the cricket numbers |
| Cricket.ZeroMarksWellFormed | ProyectoFinal/Models/DartsGame.cs:50-61 | a fresh board with no closed numbers is well formed |
| Cricket.NumberValue | ProyectoFinal/Models/DartsGame.cs:727-735 | every number, both bulls included, is worth its face value |
| Cricket.AllOthersClosedIgnoresOwn | ProyectoFinal/Models/DartsGame.cs:669-670 | replacing the thrower's own board does not change whether every opponent has closed a number |
| Cricket.AllOthersClosedAsWrittenDefined | ProyectoFinal/Models/DartsGame.cs:533-534 | on well-formed boards the source's query is defined exactly for a cricket number, or when the thrower has no opponent; when defined it agrees with AllOthersClosed |
| Cricket.ThrowPointsAsWritten | ProyectoFinal/Models/DartsGame.cs:516-543 | CalculateThrowPoints as the source evaluates it: it can fail only in Cricket with a current player, and a non-zero Cricket result needs a number the thrower has closed |
| Cricket.ThrowPoints | ProyectoFinal/Models/DartsGame.cs:516-543 | CalculateThrowPoints with a missing entry read as 0 marks: a Cricket dart scores only when the thrower has closed the number and some opponent has not |
| Cricket.ThrowPointsAsWrittenAgrees | ProyectoFinal/Models/DartsGame.cs:516-543 | the source's CalculateThrowPoints fails exactly for a Cricket dart off the cricket numbers with an opponent present; otherwise it agrees with ThrowPoints |
| Cricket.NonCricketDartFails | ProyectoFinal/Models/DartsGame.cs:516-543 | a valid single 5 by the first of two Cricket players makes the source's query fail |
| Cricket.ThrowPointsOutsideClosedSet | ProyectoFinal/Models/DartsGame.cs:516-543 | a Cricket dart scores nothing on a number the thrower has not closed, nor on a non-cricket number |
| Cricket.CricketDart | ProyectoFinal/Models/DartsGame.cs:649-715 | one dart on a cricket number keeps the board's keys |
| Cricket.CricketDartRules | ProyectoFinal/Models/DartsGame.cs:649-715 | the count becomes min(prev + marks, 3); the number joins the closed set exactly when its count first reaches 3 and it is closable; the score rises by value × max(0, marks − (3 − prev)) unless every opponent has closed it; the board stays well formed |
| Cricket.NormalPointsVanish | ProyectoFinal/Models/DartsGame.cs:698-702 | the "normal marks" branch never adds anything |
| Cricket.CricketRound | ProyectoFinal/Models/DartsGame.cs:572-586 | the round's darts keep the board's keys |
| Cricket.CricketRoundMonotone | ProyectoFinal/Models/DartsGame.cs:572-586 | a round keeps the board well formed, never removes marks and never reopens a closed number |
| Cricket.CricketRoundIgnoresOtherNumbers | ProyectoFinal/Models/DartsGame.cs:580 | valid darts on non-cricket numbers leave the board as it was |
| Cricket.InnerBullSkipped | ProyectoFinal/Models/DartsGame.cs:580 | a valid inner bull (50) is skipped by round processing |
| Cricket.StatsDart | ProyectoFinal/Models/DartsGame.cs:400-405 | the statistics path reads an inner bull as two marks on 25 and leaves other darts alone |
| Cricket.CreditedMarks | ProyectoFinal/Models/DartsGame.cs:496-506 | all the marks are credited, except that once every opponent has closed the number only the marks needed to close it count |
| GameRules.X01Commit | ProyectoFinal/Models/DartsGame.cs:557-570 | the round total comes off the score unless that goes below 0; a score never becomes negative; the score reaches 0 exactly when the round total equals it |
| GameRules.IndexOfName | ProyectoFinal/Models/DartsGame.cs:271-277 | the index of the first player with the name, or none when nobody has it |
| GameRules.RemoveAt | ProyectoFinal/Models/DartsGame.cs:278 | the list without its k-th element, the others in order |
| GameRules.IndexAfterRemove | ProyectoFinal/Models/DartsGame.cs:290-298 | the adjusted index lies within the shortened roster, and an index not past the removed player, and still inside the shortened roster, is kept |
| GameRules.IndexAfterRemoveKeepsTurn | ProyectoFinal/Models/DartsGame.cs:290-298 | the turn index stays in range; the player to throw keeps the turn, unless they were removed or were last |
| GameRules.RemoveBeforeLastPlayerQuirk | ProyectoFinal/Models/DartsGame.cs:290-294 | with A, B, C and C to throw, removing A gives the turn to B, not C |
| GameRules.X01Winner | ProyectoFinal/Models/DartsGame.cs:741-748 | the first player in roster order whose score is 0, and none when no score is 0 |
| GameRules.CricketWinner | ProyectoFinal/Models/DartsGame.cs:750-761 | among the players who have closed every closable number, one with the highest score, the first such in roster order; none when nobody has closed them all |
| GameRules.Suggestions | ProyectoFinal/Models/DartsGame.cs:842-863 | at most five suggestions, and none outside X01, without a player or with nothing left to score |
| GameRules.SuggestionsMeaning | ProyectoFinal/Models/DartsGame.cs:842-863 | at most five suggestions, each finishing exactly the score left after this round; some exactly in X01 with a current player and a finishable remainder |
| GameRules.DartStats | ProyectoFinal/Models/DartsGame.cs:395-514 | a dart adds one throw, and only the throw, point and cricket-mark counters move |
| GameRules.DartStatsMeaning | ProyectoFinal/Models/DartsGame.cs:395-514 | a dart adds one throw and changes neither the score, rounds nor legs; in X01 the points are number × marks, an inner bull counting 50 |
| GameRules.LegResults | ProyectoFinal/Models/DartsGame.cs:767-776 | the result keeps the roster's length |
| GameRules.LegResultsOneWinner | ProyectoFinal/Models/DartsGame.cs:767-776 | exactly one more won leg in the whole roster and one more played leg per player |
| GameRules.LegsAllLost | ProyectoFinal/Models/DartsGame.cs:771-775 | recording a loss for every listed player adds no won leg and one played leg each |
| GameRules.ResetScores | ProyectoFinal/Models/DartsGame.cs:808-822 | each player changes only in the score, which becomes the start score |
| Game.ZeroBoard | ProyectoFinal/Models/DartsGame.cs:56-59 | the inner foreach that sets every cricket number to 0 builds exactly the fresh board |
| Game.RosterBoardsAppend | ProyectoFinal/Models/DartsGame.cs:245-251 | a new name with a fresh board keeps the names distinct and every board well formed |
| Game.RosterBoardsRemove | ProyectoFinal/Models/DartsGame.cs:287-288 | removing a name with its board and closed set keeps every remaining board well formed |
| Game.ConsistentAppend | ProyectoFinal/Models/DartsGame.cs:221-262 | AddPlayer keeps the game's invariant |
| Game.ConsistentRemove | ProyectoFinal/Models/DartsGame.cs:264-310 | RemovePlayer, with its index adjustment, keeps the game's invariant |
| Game.WithBoardMeaning | ProyectoFinal/Models/DartsGame.cs:191-219 | creating a board on first use is idempotent, adds only that name and changes no mark count |
| Game.ConsistentBoard | ProyectoFinal/Models/DartsGame.cs:572-586 | writing back a well-formed board for the thrower keeps the invariant |
| Game.AfterDartMeaning | ProyectoFinal/Models/DartsGame.cs:361-393 | an accepted dart: one more throw; name, account, rounds and legs untouched; the cooldown starts exactly when the round completes; an X01 score stays non-negative and changes only at round end; Cricket boards stay well formed, gain marks only, and the other players' boards are untouched |
| Game.DartsGame.NewBoard | ProyectoFinal/Models/DartsGame.cs:245-251 | the new-board loop yields the fresh board |
| Game.DartsGame.constructor | ProyectoFinal/Models/DartsGame.cs:34-48 | two players, "Jugador 1" and "Jugador 2", with the mode's start score and fresh boards; index 0; round 1 open for the first player; no cooldown |
| Game.DartsGame.AddDefaultPlayers | ProyectoFinal/Models/DartsGame.cs:37-38 | both default AddPlayer calls succeed on the empty roster |
| Game.DartsGame.InitializeCricketScores | ProyectoFinal/Models/DartsGame.cs:50-61 | every roster name gets a fresh board and an empty closed set; other names keep theirs |
| Game.DartsGame.FreshBoards | ProyectoFinal/Models/DartsGame.cs:52-60 | the outer loop refreshes the board of each listed name |
| Game.DartsGame.GetPlayerCricketScores | ProyectoFinal/Models/DartsGame.cs:191-204 | returns the name's board, creating a fresh one (and an empty closed set) on first use only |
| Game.DartsGame.GetPlayerClosedNumbers | ProyectoFinal/Models/DartsGame.cs:206-219 | returns the name's closed set, creating a fresh board on first use only |
| Game.DartsGame.AddPlayer | ProyectoFinal/Models/DartsGame.cs:221-262 | succeeds exactly when there are fewer than 4 players and the name is new; the player is appended with the given score (the mode's for −1), a fresh board and no closed numbers; a refusal changes nothing |
| Game.DartsGame.RemovePlayer | ProyectoFinal/Models/DartsGame.cs:264-310 | succeeds exactly when there are more than 2 players and the name is known; the first player with the name goes with their board and closed set, and the index is adjusted; a refusal changes nothing |
| Game.DartsGame.ClearPlayers | ProyectoFinal/Models/DartsGame.cs:312-342 | empty roster, no boards, index 0, no cooldown, round number 1; the current round stays |
| Game.DartsGame.SwitchPlayer | ProyectoFinal/Models/DartsGame.cs:344-349 | the index becomes (i + 1) mod n; no-op for an empty roster |
| Game.DartsGame.StartNewRound | ProyectoFinal/Models/DartsGame.cs:351-359 | with a current player: a fresh empty round for them with the current round number, and new suggestions; otherwise nothing |
| Game.DartsGame.UpdateCheckoutCombinations | ProyectoFinal/Models/DartsGame.cs:842-863 | the suggestions become those for the current score minus this round's points |
| Game.DartsGame.CheckoutsFor | ProyectoFinal/Models/DartsGame.cs:842-863 | the branches: empty outside X01, without a player or with nothing left; otherwise at most the first five combinations |
| Game.DartsGame.AddThrow | ProyectoFinal/Models/DartsGame.cs:361-393 | refused on a complete round, in a cooldown or without a player, changing nothing; otherwise succeeds exactly for a valid pair, the round takes the pair, and an accepted dart ends in the state AfterDart describes |
| Game.DartsGame.OfferToRound | ProyectoFinal/Models/DartsGame.cs:363-371 | the refusals, then the round's AddThrow |
| Game.DartsGame.AcceptDart | ProyectoFinal/Models/DartsGame.cs:373-390 | the statistics, suggestions and round end of an accepted dart, as AfterDart |
| Game.DartsGame.FinishDart | ProyectoFinal/Models/DartsGame.cs:376-390 | X01 suggestions refreshed; a complete round scored and the cooldown started |
| Game.DartsGame.EndRound | ProyectoFinal/Models/DartsGame.cs:385-389 | ProcessRoundScore then StartCooldown, as RoundEnd |
| Game.DartsGame.RecordThrowStats | ProyectoFinal/Models/DartsGame.cs:395-514 | the thrower's statistics change as DartStats says: an inner bull as two marks on 25, one throw with the points of the corrected CalculateThrowPoints (Cricket.ThrowPoints, where a number without an entry counts as 0 marks), and in Cricket the credited marks |
| Game.DartsGame.CountDart | ProyectoFinal/Models/DartsGame.cs:408-411 | the thrower's AddThrow with the dart's points |
| Game.DartsGame.RecordCricketMarks | ProyectoFinal/Models/DartsGame.cs:483-512 | the thrower gains CreditedMarks of the dart |
| Game.DartsGame.ProcessRoundScore | ProyectoFinal/Models/DartsGame.cs:545-555 | X01: the commit with the bust rule; Cricket: the round's darts on the thrower's board and score |
| Game.DartsGame.ProcessX01RoundScore | ProyectoFinal/Models/DartsGame.cs:557-570 | the thrower's score becomes X01Commit of the score and the round total; nothing else changes |
| Game.DartsGame.ProcessCricketRoundScore | ProyectoFinal/Models/DartsGame.cs:572-586 | the thrower's board, closed set and score become CricketRound of the board and the round's slots |
| Game.DartsGame.WriteBoard | ProyectoFinal/Models/DartsGame.cs:649-715 | the thrower's new board, closed set and score are stored; nothing else changes |
| Game.DartsGame.RoundBoard | ProyectoFinal/Models/DartsGame.cs:572-586 | the board after the round's darts, which is well formed |
| Game.DartsGame.ScoreThrows | ProyectoFinal/Models/DartsGame.cs:574-585 | the foreach applies ProcessCricketScore to each valid dart on a cricket number, in slot order |
| Game.DartsGame.ProcessCricketScore | ProyectoFinal/Models/DartsGame.cs:649-715 | an inner bull counts as two marks on 25; a non-cricket number is refused unchanged; a cricket number is scored as CricketDart |
| Game.DartsGame.StartCooldown | ProyectoFinal/Models/DartsGame.cs:602-612 | the cooldown starts at 5 seconds |
| Game.DartsGame.Tick | ProyectoFinal/Models/DartsGame.cs:614-632 | a second less; at zero the cooldown ends, the thrower gains a round, the index moves to (i + 1) mod n, the round number grows and a fresh round opens |
| Game.DartsGame.CompleteRound | ProyectoFinal/Models/DartsGame.cs:588-600 | the thrower gains a round, the turn passes on, the round number grows and a fresh round opens for the next player |
| Game.DartsGame.NextTurn | ProyectoFinal/Models/DartsGame.cs:590-597 | the thrower's CompleteRound, SwitchPlayer and the next round number |
| Game.DartsGame.UndoLastThrow | ProyectoFinal/Models/DartsGame.cs:634-646 | no-op on a complete round or in a cooldown; otherwise the round's undo, and new suggestions in X01 |
| Game.DartsGame.CheckWinner | ProyectoFinal/Models/DartsGame.cs:737-765 | a winner exists exactly when X01Winner (X01) or CricketWinner (Cricket) finds one; then the whole roster's legs are recorded; otherwise no player changes |
| Game.DartsGame.RecordGameResults | ProyectoFinal/Models/DartsGame.cs:767-776 | the winner gets a won leg and every other player a lost one |
| Game.DartsGame.ResetGame | ProyectoFinal/Models/DartsGame.cs:808-840 | every score back to the mode's start; boards refreshed only in Cricket; no suggestions, no cooldown; index 0, round 1 and a fresh round for the first player |
| Game.DartsGame.RestartTurns | ProyectoFinal/Models/DartsGame.cs:825-838 | no suggestions, no cooldown, index 0 and round 1; players, round and boards untouched |
| Game.DartsGame.ResetPlayers | ProyectoFinal/Models/DartsGame.cs:810-824 | the scores set by mode, and InitializeCricketScores in Cricket only |
| Game.DartsGame.SetScores | ProyectoFinal/Models/DartsGame.cs:812-821 | every player's score set, nothing else changed |
| Game.DartsGame.SetGameMode | ProyectoFinal/Models/DartsGame.cs:63-93 | assigning the current mode changes nothing; a new mode is stored and resets the game: start scores, index 0, round 1, no cooldown, the suggestions for the start score, boards refreshed in Cricket and kept in X01, and a fresh empty round for the first player |
| CricketView.Least | ProyectoFinal/Models/CricketPlayerInfo.cs:166 | the least element of a non-empty set |
| CricketView.Ascending | ProyectoFinal/Models/CricketPlayerInfo.cs:166 | the set's elements, each once, in strictly ascending order |
| CricketView.AscendingElements | ProyectoFinal/Models/CricketPlayerInfo.cs:166 | the ascending list holds exactly the set |
| CricketView.Rendered | ProyectoFinal/Models/CricketPlayerInfo.cs:166 | each number's ToString, in order |
| CricketView.ClosedNumbersText | ProyectoFinal/Models/CricketPlayerInfo.cs:159-168 | "Sin números cerrados" for the empty set, otherwise a text starting with "Números cerrados: " |
| CricketView.ClosedNumbersTextMeaning | ProyectoFinal/Models/CricketPlayerInfo.cs:159-168 | the text is "Sin números cerrados" exactly for the empty set, and otherwise starts with "Números cerrados: " |
| CricketView.ClosedNumbersTextExample | ProyectoFinal/Models/CricketPlayerInfo.cs:166-167 | closing 20 and 15 reads "Números cerrados: 15, 20" |
| CricketView.RenderedNonNegative | ProyectoFinal/Models/CricketPlayerInfo.cs:166-167 | the texts of non-negative numbers hold no comma and read back as the same numbers |
| CricketView.ClosedTextRoundTrip | ProyectoFinal/Models/CricketPlayerInfo.cs:159-168 | the text determines the closed set: reading it back gives the set |
| CricketView.CricketPlayerInfo.Name | ProyectoFinal/Models/CricketPlayerInfo.cs:31 | always the wrapped player's name |
| CricketView.CricketPlayerInfo.constructor | ProyectoFinal/Models/CricketPlayerInfo.cs:24-29 | wraps the player and the game, then shows the game's marks and text (zeros and "" without a game) |
| CricketView.CricketPlayerInfo.GetCricketMarks | ProyectoFinal/Models/CricketPlayerInfo.cs:151-157 | 0 without a game; otherwise the player's count on the number, 0 without an entry; the game gains the player's board on first use only |
| CricketView.CricketPlayerInfo.GetClosedNumbersText | ProyectoFinal/Models/CricketPlayerInfo.cs:159-168 | "" without a game; otherwise the text of the player's closed set |
| CricketView.CricketPlayerInfo.ReadMarks | ProyectoFinal/Models/CricketPlayerInfo.cs:172-179 | the eight counts as the game holds them |
| CricketView.CricketPlayerInfo.UpdateAllMarks | ProyectoFinal/Models/CricketPlayerInfo.cs:170-181 | afterwards each mark field equals the game's count for its number (0 where absent) and the text is that of the closed set; without a game everything is 0 and "" |
| CricketView.CricketPlayerInfo.SetAll | ProyectoFinal/Models/CricketPlayerInfo.cs:172-180 | the nine fields take the given values |
| CricketView.CricketPlayerInfo.Refresh | ProyectoFinal/Models/CricketPlayerInfo.cs:183-190 | the same as UpdateAllMarks |
| Text.NatToStringDigits | ProyectoFinal/Models/CricketPlayerInfo.cs:166 | the rendering of a non-negative number is all digits |
| Text.IntToStringLead | ProyectoFinal/Models/CricketPlayerInfo.cs:166 | a rendering starts with a digit exactly for non-negative values, otherwise with '-' |
| Text.ParseNatToString | ProyectoFinal/Models/CricketPlayerInfo.cs:166 | reading the digits back gives the number |
| Text.NatToStringInjective | ProyectoFinal/Models/CheckoutCalculator.cs:185-199 | different numbers render differently |
| Text.Join | ProyectoFinal/Models/CricketPlayerInfo.cs:167 | string.Join of no piece is "", of one piece is that piece |
| Text.LastComma | ProyectoFinal/Models/CricketPlayerInfo.cs:167 | the position of the last comma, or −1 |
| Text.PiecesOfJoin | ProyectoFinal/Models/CricketPlayerInfo.cs:167 | a ", "-joined list of comma-free pieces splits back into the pieces |
| Text.UpperChar | ProyectoFinal/Services/UserService.cs:54-55 | the ASCII and Latin-1 lower-case letters a..z and à..þ (not ÷) fold 32 code points down; any character that is not a lower-case letter is kept |
| Text.UpperCharFolds | ProyectoFinal/Services/UserService.cs:54-55 | a character changes exactly when it is a lower-case letter (ÿ and µ included), the result is never lower case, and folding twice is folding once |
| Text.Upper | ProyectoFinal/Services/UserService.cs:54-55 | character-by-character folding |
| Text.EqualsIgnoreCaseProperties | ProyectoFinal/Services/UserService.cs:54-55 | ignore-case equality is reflexive, symmetric and transitive, and equates only strings of equal length |
| Text.EqualsIgnoreCaseExample | ProyectoFinal/Services/UserService.cs:54-55 | "Ana" equals "ANA" but not "Ane", and "josé" equals "JOSÉ" |
| Statistics.GameRecordedMeaning | ProyectoFinal/Models/UserStatistics.cs:288-316 | one more game and roundsPlayed more rounds; one more win exactly when won; best score max(old, final); the game counted in its own mode only; the dart counters untouched; the invariant kept |
| Statistics.ThrowsRecordedMeaning | ProyectoFinal/Models/UserStatistics.cs:318-323 | one more throw with its points and marks; no game counter moves; the invariant kept |
| Statistics.UserStatistics.constructor | ProyectoFinal/Models/UserStatistics.cs:38-41 | the given user id, every counter 0 |
| Statistics.UserStatistics.RecordGamePlayed | ProyectoFinal/Models/UserStatistics.cs:288-316 | the counters become GameRecorded of the old ones |
| Statistics.UserStatistics.RecordThrows | ProyectoFinal/Models/UserStatistics.cs:318-323 | the counters become ThrowsRecorded of the old ones |
| Statistics.UserStatistics.ResetStats | ProyectoFinal/Models/UserStatistics.cs:374-392 | every counter 0 |
| Statistics.UserStatistics.WinPercentage | ProyectoFinal/Models/UserStatistics.cs:325-335 | 0 with no games, within 0..100, 100 exactly when every game was won, 0 exactly when none was |
| Users.FirstWhere | ProyectoFinal/Services/UserService.cs:75 | FirstOrDefault: the first index satisfying the condition, or none when no element does |
| Users.FindByNameUnique | ProyectoFinal/Services/UserService.cs:75 | in a registry of distinct accounts, a name found ignoring case finds the one account that has it |
| Users.DistinctAppend | ProyectoFinal/Services/UserService.cs:54-62 | appending an account whose name, e-mail and id are unused keeps the accounts distinct |
| Users.DistinctRemove | ProyectoFinal/Services/UserService.cs:126 | removing an account keeps the rest distinct |
| Users.RemovedRegistry | ProyectoFinal/Services/UserService.cs:121-134 | removing the k-th account and record keeps the registry distinct and parallel, drops no other account and leaves none with the removed id |
| Users.UserService.constructor | ProyectoFinal/Services/UserService.cs:19-25 | an empty registry with nobody logged in |
| Users.UserService.StatsAtUserIndex | ProyectoFinal/Services/UserService.cs:96-99 | in a valid registry the record of an id sits at the index of the account with that id |
| Users.UserService.RegisterUser | ProyectoFinal/Services/UserService.cs:51-71 | refused exactly when the name or the e-mail is in use, ignoring case, changing nothing; otherwise an active account is appended, with an empty record carrying the same id; accounts stay distinct |
| Users.UserService.IsUserLoggedIn | ProyectoFinal/Services/UserService.cs:49 | true exactly when a user is logged in |
| Users.UserService.LoginUser | ProyectoFinal/Services/UserService.cs:73-82 | succeeds exactly when the first account matching the name, ignoring case, is active, and that account becomes the current user; a failure keeps the current user |
| Users.UserService.LogoutUser | ProyectoFinal/Services/UserService.cs:84-87 | nobody is logged in afterwards |
| Users.UserService.GetUserStatistics | ProyectoFinal/Services/UserService.cs:96-99 | a record with the id, and null exactly when no record has it |
| Users.UserService.GetCurrentUserStatistics | ProyectoFinal/Services/UserService.cs:89-94 | null when nobody is logged in; otherwise the current user's record |
| Users.UserService.CurrentUserHasStatistics | ProyectoFinal/Services/UserService.cs:89-94 | in a valid registry a logged-in user always has a record |
| Users.UserService.RecordGameForCurrentUser | ProyectoFinal/Services/UserService.cs:101-109 | the current user's record gains the game; every other record is unchanged; a no-op without a current user |
| Users.UserService.RecordThrowsForCurrentUser | ProyectoFinal/Services/UserService.cs:111-119 | the current user's record gains the dart; every other record is unchanged; a no-op without a current user |
| Users.UserService.DeleteUser | ProyectoFinal/Services/UserService.cs:121-146 | succeeds exactly for a known id, then the account and its record are removed and the current user is logged out if it was the deleted one; an unknown id changes nothing; afterwards no account has the id |

## Left out

- The one-second `System.Timers.Timer` and the main-thread dispatch. The
  timer is replaced by `DartsGame.Tick`, which requires a running cooldown.
  Concurrency between ticks and user actions is not modelled.
- Property-change notifications, `RefreshCricketUI`, `Debug.WriteLine`, and
  the Spanish `DisplayText` of `DartThrow` and `Round`: all UI plumbing with
  no effect on the modelled state.
- The floating-point averages of `Player` and `UserStatistics`
  (`Math.Round` over doubles).
- Players.Player.WinPercentage: the exact ratio before the rounding to one
  decimal, because real-number rounding is not modelled.
- Statistics.UserStatistics.WinPercentage: the same exact ratio, for the
  same reason.
- The engine's calls into the `UserService` singleton from
  `RecordThrowStats` and `RecordGameResults`. The registry's own recording
  methods are modelled in `Users`.
- The registry's file and JSON persistence (`LoadUsers`, `SaveUsers` and the
  statistics pair), the singleton and its lock. The model's registry starts
  empty.
- `DateTime.Now` fields. The `Guid` id of a new `User` is a parameter of
  `RegisterUser` that no account uses yet.
- The `CricketPlayerInfos` collection of `DartsGame`. The row class itself
  is modelled in `CricketView`. Its constructor requires a game that already
  satisfies `DartsGame.Valid`, whereas `AddPlayer` (DartsGame.cs:238-247)
  builds the row after appending the player but before creating the player's
  board, and during the game's own constructor no round exists yet. The row's
  end state is the same: the constructor creates the missing board through
  `GetPlayerCricketScores`, which `AddPlayer` then overwrites with zeros.
- The pages, the converter, and the `User` setters and display properties.
- Players.Player.name: a constant, so the public `Name` setter of `Player`
  (Player.cs:32-43) is not modelled; the core never calls it.
- Players.Player.userId: a constant, so the public `UserId` setter of `Player`
  (Player.cs:177-188) is not modelled; the core never calls it.
- Statistics.UserStatistics.userId: a constant, so the public `UserId` setter
  of `UserStatistics` (UserStatistics.cs:43-54) is not modelled; the core
  never calls it.
- Users.UserService.Valid: it states that the accounts are distinct and that
  the records run parallel to them. The source keeps both only for data
  entered through `RegisterUser`; loaded files may break them.
- Game.DartsGame.AddThrow: the source calls `GetPlayerCricketScores` for the
  thrower before the round's `AddThrow`. The game's invariant keeps every
  roster name's board in place, so that call never changes anything and is
  not modelled as a step.
- Game.DartsGame.CheckWinner: the Cricket query reads each board through
  `GetPlayerCricketScores`; for the same reason it is read directly.
- CricketView.CricketPlayerInfo.UpdateAllMarks: the source assigns each
  field right after its read. The model reads all eight counts and the text
  first, then writes the nine fields. No read depends on a field of the row,
  so the end state is the same.
- Large loop nests are split into helper methods:
  `AddFinishingDarts` and `AddSecondDarts` in the checkout search, and the
  `AcceptDart`/`FinishDart`/`EndRound` chain in `AddThrow`. Each helper is
  one contiguous part of the source method, in the same order.
- Game.DartsGame.RecordThrowStats: uses the corrected `Cricket.ThrowPoints`.
  The source's `CalculateThrowPoints` throws `KeyNotFoundException` for a
  valid Cricket dart on 1..14 when the thrower has an opponent (see Findings).
  There the source records no statistics for the dart, because the points are
  computed before `Player.AddThrow`. The model records the throw with 0
  points.
- Game.DartsGame.AcceptDart: follows the corrected lookup. In the source the
  exception above leaves `AddThrow` before the X01 suggestions, the round
  scoring and the cooldown (DartsGame.cs:379-389). The model finishes the dart
  as `AfterDart` says.
- Game.DartsGame.AddThrow: follows the corrected lookup; it returns true and
  ends in the `AfterDart` state. In the source the exception escapes from
  `AddThrow` after `Round.AddThrow` has stored the dart. If that was the
  third dart, the round stays complete with no cooldown, so `AddThrow` and
  `UndoLastThrow` refuse every later call until the game is reset.
- Text.UpperChar: folds only ASCII and Latin-1 letters (with ÿ to Ÿ and µ to
  Μ). `OrdinalIgnoreCase` also folds letters beyond U+00FF, such as Latin
  Extended, Greek and Cyrillic. Those characters are kept unchanged.
- Users.UserService.RegisterUser: because of that fold, two names or
  e-mails that differ only in the case of a letter beyond U+00FF (for
  example "ő" and "Ő") count as different. The source refuses the second one;
  the model accepts it.
- Users.UserService.LoginUser: for the same reason, a name that differs from
  an account's only in the case of a letter beyond U+00FF does not find that
  account.

## Findings

| source | as written | input that shows it | evidently intended | confidence | as-written member | corrected member |
|---|---|---|---|---|---|---|
| ProyectoFinal/Models/DartsGame.cs:533-534 | In Cricket, `CalculateThrowPoints` indexes every opponent's board with the dart's number. A board holds entries only for 0, 15..20 and 25, so a dart on 1..14 makes the indexer fail (a `KeyNotFoundException`) whenever the thrower has an opponent. `RecordThrowStats` calls it for every accepted dart. | Cricket, two players "A" and "B" on fresh boards; "A" throws a valid single 5 | a dart off the cricket numbers scores 0 in Cricket and is recorded as a throw | not executed | Cricket.ThrowPointsAsWritten, with Cricket.NonCricketDartFails and Cricket.ThrowPointsAsWrittenAgrees | Cricket.ThrowPoints, with Cricket.ThrowPointsOutsideClosedSet |
