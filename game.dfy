/**
 * The Yahtzee game: the score card, the five dice and the throws left in the
 * round, the roll with selective reroll, recording a throw into a box, the
 * scoreboard, one round and the whole 13-round game.
 *
 * The random generator and the console are replaced by supplied values: the
 * die values drawn for each roll, the parsed reroll selections typed after a
 * roll, and the box numbers typed when the throw is to be scored.
 */
module Game {
  import opened Dice
  import opened Scoring

  /** The reroll selection of the first roll of a round: all five positions. */
  const AllPositions: seq<int> := [1, 2, 3, 4, 5]

  /**
   * The dice after a roll: the die at 1-based position p takes the value
   * drawn for it when p is selected, and keeps its value otherwise.
   */
  function Rerolled(dice: seq<int>, reroll: seq<int>, draws: seq<int>): (r: seq<int>)
    requires |dice| == 5 && |draws| == 5
    ensures |r| == 5
    ensures AllFaces(dice) && AllFaces(draws) ==> IsHand(r)
  {
    seq(5, k requires 0 <= k < 5 => if k + 1 in reroll then draws[k] else dice[k])
  }

  /** Selecting every position replaces the whole hand by the values drawn. */
  lemma RerollAll(dice: seq<int>, draws: seq<int>)
    requires |dice| == 5 && |draws| == 5
    ensures Rerolled(dice, AllPositions, draws) == draws
  {
  }

  /** A selection naming no position 1..5 leaves the hand as it is. */
  lemma RerollNothing(dice: seq<int>, reroll: seq<int>, draws: seq<int>)
    requires |dice| == 5 && |draws| == 5
    requires forall p :: p in reroll ==> !(1 <= p <= 5)
    ensures Rerolled(dice, reroll, draws) == dice
  {
  }

  /**
   * Only which positions 1..5 are selected matters: their order, repeats and
   * any other numbers in the selection do not change the result.
   */
  lemma RerollByPositions(dice: seq<int>, a: seq<int>, b: seq<int>, draws: seq<int>)
    requires |dice| == 5 && |draws| == 5
    requires forall p :: 1 <= p <= 5 ==> (p in a <==> p in b)
    ensures Rerolled(dice, a, draws) == Rerolled(dice, b, draws)
  {
    forall k | 0 <= k < 5 ensures Rerolled(dice, a, draws)[k] == Rerolled(dice, b, draws)[k] {
      assert 1 <= k + 1 <= 5;
    }
  }

  // ---------------------------------------------------------------------------
  // One round.

  /** The values drawn for the three rolls of a round: three hands. */
  predicate ValidDraws(draws: seq<seq<int>>)
  {
    |draws| == 3 && forall k :: 0 <= k < 3 ==> IsHand(draws[k])
  }

  /**
   * The number of rolls in a round, given the selections typed after the
   * first and the second roll: an empty selection keeps the throw.
   */
  function RollsInRound(selections: seq<seq<int>>): (rolls: nat)
    requires |selections| == 2
    ensures 1 <= rolls <= 3
    ensures rolls == 3 <==> selections[0] != [] && selections[1] != []
  {
    if selections[0] == [] then 1 else if selections[1] == [] then 2 else 3
  }

  /**
   * The dice after the first n rolls of a round: the first roll redraws all
   * five dice, roll n > 1 redraws the positions selected after roll n - 1.
   */
  function DiceAfter(dice: seq<int>, selections: seq<seq<int>>, draws: seq<seq<int>>, n: nat): (r: seq<int>)
    requires |dice| == 5 && |selections| == 2 && ValidDraws(draws) && n <= 3
    ensures |r| == 5
  {
    if n == 0 then dice
    else Rerolled(DiceAfter(dice, selections, draws, n - 1), if n == 1 then AllPositions else selections[n - 2], draws[n - 1])
  }

  /**
   * Once a round has rolled, its dice are a hand and do not depend on the
   * dice left over from the previous round: the first roll is exactly the
   * first draw.
   */
  lemma {:induction false} RoundForgetsOldDice(dice: seq<int>, other: seq<int>, selections: seq<seq<int>>, draws: seq<seq<int>>, n: nat)
    requires |dice| == 5 && |other| == 5 && |selections| == 2 && ValidDraws(draws) && 1 <= n <= 3
    ensures DiceAfter(dice, selections, draws, 1) == draws[0]
    ensures DiceAfter(dice, selections, draws, n) == DiceAfter(other, selections, draws, n)
    ensures IsHand(DiceAfter(dice, selections, draws, n))
  {
    RerollAll(dice, draws[0]);
    RerollAll(other, draws[0]);
    if n > 1 {
      RoundForgetsOldDice(dice, other, selections, draws, n - 1);
    }
  }

  /**
   * The first box number among the choices that names a box 1..13 which is
   * still empty; the numbers before it are rejected.
   */
  function FirstFree(card: Card, choices: seq<int>): (box: Option<int>)
    requires |card| == 13
    ensures box.Some? ==> 1 <= box.value <= 13 && card[box.value - 1].None? && box.value in choices
    ensures box.None? <==> forall j :: 0 <= j < |choices| ==> !(1 <= choices[j] <= 13 && card[choices[j] - 1].None?)
    ensures box.Some? ==> exists j :: (0 <= j < |choices| && choices[j] == box.value &&
      forall k :: 0 <= k < j ==> !(1 <= choices[k] <= 13 && card[choices[k] - 1].None?))
  {
    if choices == [] then None
    else if 1 <= choices[0] <= 13 && card[choices[0] - 1].None? then Some(choices[0])
    else FirstFree(card, choices[1..])
  }

  /** The number of boxes of the card that hold a throw. */
  function FilledCount(card: Card): (n: nat)
    ensures n <= |card|
    ensures n == |card| <==> forall i :: 0 <= i < |card| ==> card[i].Some?
    ensures n == 0 <==> forall i :: 0 <= i < |card| ==> card[i].None?
  {
    if card == [] then 0 else (if card[0].Some? then 1 else 0) + FilledCount(card[1..])
  }

  /** Filling an empty box adds one to the number of filled boxes. */
  lemma {:induction false} FillOneBox(card: Card, i: nat, hand: seq<int>)
    requires i < |card| && card[i].None?
    ensures FilledCount(card[i := Some(hand)]) == FilledCount(card) + 1
  {
    if i > 0 {
      assert card[i := Some(hand)][1..] == card[1..][i - 1 := Some(hand)];
      FillOneBox(card[1..], i - 1, hand);
    } else {
      assert card[i := Some(hand)][1..] == card[1..];
    }
  }

  datatype RecordError = InvalidBox | BoxFilled

  datatype Outcome = Recorded | Rejected(error: RecordError)

  /**
   * What the console supplies for one round: the reroll selections typed
   * after the first and the second roll (the positions 1..5 whose digits a
   * reply contains), the five values drawn for each of the three rolls, and
   * the box numbers typed, in order, when scoring.
   */
  datatype RoundInput = RoundInput(selections: seq<seq<int>>, draws: seq<seq<int>>, choices: seq<int>)
  {
    predicate WellFormed()
    {
      |selections| == 2 && ValidDraws(draws) &&
      forall k, p :: 0 <= k < 2 && p in selections[k] ==> 1 <= p <= 5
    }
  }

  /** The dice a game starts from, and the hand left before its first round. */
  const StartDice: seq<int> := [1, 1, 1, 1, 1]

  /**
   * The card after the first n rounds of a game: it starts blank, and each
   * round writes the dice it ends with into the box its choices pick, if any.
   */
  function CardAfter(rounds: seq<RoundInput>, n: nat): (card: Card)
    requires n <= |rounds| && forall r :: r in rounds ==> r.WellFormed()
    ensures |card| == 13
  {
    if n == 0 then seq(13, _ => None)
    else
      var card := CardAfter(rounds, n - 1);
      var r := rounds[n - 1];
      assert r in rounds;
      match FirstFree(card, r.choices)
      case None => card
      case Some(box) => card[box - 1 := Some(DiceAfter(StartDice, r.selections, r.draws, RollsInRound(r.selections)))]
  }

  /** A box filled after m rounds still holds the same throw after any later round. */
  lemma {:induction false} WriteOnce(rounds: seq<RoundInput>, m: nat, n: nat, i: nat)
    requires m <= n <= |rounds| && forall r :: r in rounds ==> r.WellFormed()
    requires i < 13 && CardAfter(rounds, m)[i].Some?
    ensures CardAfter(rounds, n)[i] == CardAfter(rounds, m)[i]
  {
    if m < n {
      WriteOnce(rounds, m, n - 1, i);
    }
  }

  /** Fills entries 0-5 with the scores of the six upper boxes. */
  method ScoreUpperSection(card: Card, s: seq<int>) returns (t: seq<int>)
    requires ValidCard(card) && |s| == 16
    ensures |t| == 16 && forall j :: 6 <= j < 16 ==> t[j] == s[j]
    ensures forall j :: 0 <= j < 6 ==> t[j] == UpperScore(card[j], j)
  {
    t := s;
    for i := 0 to 6
      invariant |t| == 16 && forall j :: 6 <= j < 16 ==> t[j] == s[j]
      invariant forall j :: 0 <= j < i ==> t[j] == UpperScore(card[j], j)
    {
      var count := DiceToCount(card[i]);
      t := t[i := count[i] * (i + 1)];
    }
  }

  /**
   * When the Yahtzee box holds a Yahtzee, entry 11 becomes 50 and entry 14
   * becomes 100 for every other box holding one; otherwise nothing changes.
   */
  method ScoreYahtzees(card: Card, s: seq<int>) returns (t: seq<int>)
    requires ValidCard(card) && |s| == 16
    ensures |t| == 16 && forall j :: 0 <= j < 16 && j != 11 && j != 14 ==> t[j] == s[j]
    ensures t[11] == (if IsYahtzee(card[YahtzeeBox]) then 50 else s[11])
    ensures t[14] == (if IsYahtzee(card[YahtzeeBox]) then YahtzeeBonus(card) else s[14])
  {
    t := s;
    var yahtzee := DiceToCount(card[11]);
    if 5 in yahtzee {
      t := t[11 := 50];
      t := t[14 := 0];
      t := AddYahtzeeBonus(card, t);
    }
  }

  /** Adds 100 to entry 14 for every box other than the Yahtzee box that holds a Yahtzee. */
  method AddYahtzeeBonus(card: Card, s: seq<int>) returns (t: seq<int>)
    requires ValidCard(card) && |s| == 16
    ensures t == s[14 := s[14] + 100 * OtherYahtzees(card, 13)]
  {
    t := s;
    for i := 0 to 13
      invariant t == s[14 := s[14] + 100 * OtherYahtzees(card, i)]
    {
      if i == YahtzeeBox {
        continue;
      }
      var count := DiceToCount(card[i]);
      if 5 in count {
        t := t[14 := t[14] + 100];
      }
    }
  }

  class Yahtzee {
    /** The score card: the throw recorded in each of the 13 boxes, or None for a blank box. */
    var score: array<Slot>
    /** The five dice, showing the latest throw. */
    var dice: array<int>
    /** The throws left in the current round. */
    var throwsLeft: int

    ghost predicate Valid()
      reads this, score, dice
    {
      score.Length == 13 && dice.Length == 5 && IsHand(dice[..]) &&
      forall i :: 0 <= i < 13 ==> ValidSlot(score[i])
    }

    constructor ()
      ensures Valid() && fresh(score) && fresh(dice)
      ensures score[..] == seq(13, _ => None) && dice[..] == [1, 1, 1, 1, 1] && throwsLeft == 3
    {
      score := new Slot[13](_ => None);
      dice := new int[5](_ => 1);
      throwsLeft := 3;
    }

    /**
     * Uses one throw and redraws the dice at the 1-based positions named in
     * reroll, with the values drawn for them; there is no check that a
     * throw is left.
     */
    method Roll(reroll: seq<int>, draws: seq<int>)
      requires Valid() && IsHand(draws)
      modifies this`throwsLeft, dice
      ensures Valid()
      ensures throwsLeft == old(throwsLeft) - 1
      ensures dice[..] == Rerolled(old(dice[..]), reroll, draws)
    {
      throwsLeft := throwsLeft - 1;
      for i := 1 to 6
        invariant throwsLeft == old(throwsLeft) - 1
        invariant forall k :: 0 <= k < 5 ==>
          dice[k] == if k + 1 < i then Rerolled(old(dice[..]), reroll, draws)[k] else old(dice[k])
      {
        if i in reroll {
          dice[i - 1] := draws[i - 1];
        }
      }
      assert dice[..] == Rerolled(old(dice[..]), reroll, draws);
    }

    /**
     * Records a copy of the current dice in box number box (1..13). A number
     * outside 1..13 or a box already filled is rejected and nothing changes.
     */
    method Record(box: int) returns (outcome: Outcome)
      requires Valid()
      modifies score
      ensures Valid()
      ensures outcome == Rejected(InvalidBox) <==> !(1 <= box <= 13)
      ensures outcome == Rejected(BoxFilled) <==> 1 <= box <= 13 && old(score[box - 1]).Some?
      ensures outcome == Recorded <==> 1 <= box <= 13 && old(score[box - 1]).None?
      ensures score[..] == if outcome == Recorded then old(score[..])[box - 1 := Some(dice[..])] else old(score[..])
    {
      if !(1 <= box <= 13) {
        return Rejected(InvalidBox);
      }
      if score[box - 1].Some? {
        return Rejected(BoxFilled);
      }
      score[box - 1] := Some(dice[..]);
      outcome := Recorded;
    }

    /** The 16-entry scoreboard of the current card. */
    method GetScore() returns (board: seq<int>)
      requires Valid()
      ensures board == Scoreboard(score[..])
    {
      var card := score[..];
      var s := [0, 0, 0, 0, 0, 0, 0, 0, 0, 0, 0, 0, 0, 0, 0, 0];
      s := ScoreUpperSection(card, s);
      ghost var upper := s[..6];
      s := s[13 := if Sum(s[..6]) >= 63 then 35 else 0];
      s := s[6 := ThreeOfAKindScore(card[6])];
      s := s[7 := FourOfAKindScore(card[7])];
      s := s[8 := FullHouseScore(card[8])];
      s := s[9 := LowStraightScore(card[9])];
      s := s[10 := HighStraightScore(card[10])];
      s := ScoreYahtzees(card, s);
      s := s[12 := ChanceScore(card[12])];
      ScoreboardByEntries(card, s, upper);
      s := s[15 := Sum(s)];
      board := s;
    }

    /**
     * The rolls of one round: the first of all five dice, each later one of
     * the positions selected after the previous roll, stopping early on an
     * empty selection.
     */
    method RollRound(selections: seq<seq<int>>, draws: seq<seq<int>>) returns (rolls: nat)
      requires Valid()
      requires |selections| == 2 && ValidDraws(draws)
      modifies this`throwsLeft, dice
      ensures Valid()
      ensures rolls == RollsInRound(selections) && throwsLeft == 3 - rolls
      ensures dice[..] == DiceAfter(old(dice[..]), selections, draws, rolls)
    {
      throwsLeft := 3;
      var reroll := AllPositions;
      while throwsLeft > 0
        invariant Valid() && 0 <= throwsLeft <= 3
        invariant dice[..] == DiceAfter(old(dice[..]), selections, draws, 3 - throwsLeft)
        invariant throwsLeft == 3 ==> reroll == AllPositions
        invariant 0 < throwsLeft < 3 ==> reroll == selections[2 - throwsLeft]
        invariant forall j :: 0 <= j < 3 - throwsLeft && j < 2 ==> selections[j] != []
      {
        Roll(reroll, draws[3 - throwsLeft]);
        if throwsLeft > 0 {
          reroll := selections[2 - throwsLeft];
          if reroll == [] {
            break;
          }
        }
      }
      rolls := 3 - throwsLeft;
    }

    /**
     * Records the throw into the first acceptable box number among the
     * choices, rejecting the numbers before it. If no choice is acceptable
     * the throw is not recorded.
     */
    method ChooseBox(choices: seq<int>) returns (box: Option<int>)
      requires Valid()
      modifies score
      ensures Valid()
      ensures box == FirstFree(old(score[..]), choices)
      ensures score[..] == if box.Some? then old(score[..])[box.value - 1 := Some(dice[..])] else old(score[..])
    {
      var k := 0;
      box := None;
      while k < |choices|
        invariant 0 <= k <= |choices|
        invariant Valid() && score[..] == old(score[..])
        invariant FirstFree(old(score[..]), choices) == FirstFree(old(score[..]), choices[k..])
      {
        var outcome := Record(choices[k]);
        if outcome == Recorded {
          box := Some(choices[k]);
          break;
        }
        assert choices[k..][1..] == choices[k + 1..];
        k := k + 1;
      }
    }

    /**
     * Plays one round: the rolls, then the throw goes into the first
     * acceptable box among the choices.
     */
    method PlayRound(selections: seq<seq<int>>, draws: seq<seq<int>>, choices: seq<int>) returns (rolls: nat, box: Option<int>)
      requires Valid()
      requires |selections| == 2 && ValidDraws(draws)
      modifies this`throwsLeft, score, dice
      ensures Valid()
      ensures rolls == RollsInRound(selections) && throwsLeft == 3 - rolls
      ensures dice[..] == DiceAfter(old(dice[..]), selections, draws, rolls)
      ensures box == FirstFree(old(score[..]), choices)
      ensures score[..] == if box.Some? then old(score[..])[box.value - 1 := Some(dice[..])] else old(score[..])
    {
      rolls := RollRound(selections, draws);
      box := ChooseBox(choices);
    }

    /**
     * Plays a game: a blank card and dice showing 1-1-1-1-1, then 13
     * rounds, each filling one more box. The game stops early, with fewer
     * boxes filled, only when a round's box choices name no blank box. The
     * final score is the total of the scoreboard of the card then reached.
     */
    method Run(rounds: seq<RoundInput>) returns (played: nat, total: int)
      requires |rounds| == 13 && forall r :: r in rounds ==> r.WellFormed()
      modifies this
      ensures Valid() && fresh(score) && fresh(dice)
      ensures played <= 13 && FilledCount(score[..]) == played
      ensures played == 13 ==> forall i :: 0 <= i < 13 ==> score[i].Some?
      ensures played < 13 ==> FirstFree(score[..], rounds[played].choices).None?
      ensures score[..] == CardAfter(rounds, played)
      ensures total == Scoreboard(score[..])[15]
    {
      score := new Slot[13](_ => None);
      dice := new int[5](_ => 1);
      assert score[..] == CardAfter(rounds, 0);
      assert FilledCount(score[..]) == 0 by {
        assert forall i :: 0 <= i < 13 ==> score[..][i].None?;
      }
      played := 0;
      while played < 13
        invariant played <= 13
        invariant Valid() && fresh(score) && fresh(dice)
        invariant FilledCount(score[..]) == played
        invariant score[..] == CardAfter(rounds, played)
      {
        var round := rounds[played];
        assert round in rounds;
        ghost var before := score[..];
        ghost var oldDice := dice[..];
        var rolls, box := PlayRound(round.selections, round.draws, round.choices);
        if box.None? {
          assert score[..] == before;
          break;
        }
        RoundForgetsOldDice(oldDice, StartDice, round.selections, round.draws, rolls);
        FillOneBox(before, box.value - 1, dice[..]);
        played := played + 1;
      }
      var board := GetScore();
      total := board[15];
    }
  }
}
