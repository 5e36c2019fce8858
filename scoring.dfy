/**
 * Scoring of the Yahtzee score card: the score of each of the 13 boxes, the
 * upper-section bonus, the multi-Yahtzee bonus and the total, as the
 * 16-entry scoreboard that the game derives from its card.
 */
module Scoring {
  import opened Dice

  /**
   * The score card: 13 boxes in card order, Ones, Twos, Threes, Fours, Fives,
   * Sixes (the upper section), Three of a Kind, Four of a Kind, Full House,
   * Low Straight, High Straight, Yahtzee, Chance (the lower section).
   */
  type Card = seq<Slot>

  /** The zero-based position of the Yahtzee box. */
  const YahtzeeBox := 11

  predicate ValidCard(card: Card)
  {
    |card| == 13 && forall i :: 0 <= i < 13 ==> ValidSlot(card[i])
  }

  /** Upper box i (0..5) scores i+1 for each die showing face i+1. */
  function UpperScore(slot: Slot, i: nat): (r: int)
    requires i < 6
    ensures r >= 0 && (slot.None? ==> r == 0)
  {
    Histogram(slot)[i] * (i + 1)
  }

  /** Three of a Kind scores the sum of the dice when it qualifies. */
  function ThreeOfAKindScore(slot: Slot): (r: int)
    ensures r != 0 ==> slot.Some? && IsThreeOfAKind(slot)
  {
    if IsThreeOfAKind(slot) then Sum(slot.value) else 0
  }

  /** Four of a Kind scores the sum of the dice when it qualifies. */
  function FourOfAKindScore(slot: Slot): (r: int)
    ensures r != 0 ==> slot.Some? && IsFourOfAKind(slot) && r == ThreeOfAKindScore(slot)
  {
    if IsFourOfAKind(slot) then Sum(slot.value) else 0
  }

  function FullHouseScore(slot: Slot): (r: int)
    ensures r in {0, 25} && (slot.None? ==> r == 0)
  {
    if IsFullHouse(slot) then 25 else 0
  }

  function LowStraightScore(slot: Slot): (r: int)
    ensures r in {0, 30} && (slot.None? ==> r == 0)
  {
    if IsLowStraight(slot) then 30 else 0
  }

  function HighStraightScore(slot: Slot): (r: int)
    ensures r in {0, 40} && (slot.None? ==> r == 0)
    ensures r == 40 ==> LowStraightScore(slot) == 30
  {
    if IsHighStraight(slot) then 40 else 0
  }

  function YahtzeeScore(slot: Slot): (r: int)
    ensures r in {0, 50} && (slot.None? ==> r == 0)
    ensures r == 50 ==> FourOfAKindScore(slot) == ThreeOfAKindScore(slot) == Sum(slot.value)
  {
    if IsYahtzee(slot) then 50 else 0
  }

  /** Chance scores the sum of the dice of any recorded throw. */
  function ChanceScore(slot: Slot): (r: int)
    ensures slot.None? ==> r == 0
    ensures ThreeOfAKindScore(slot) != 0 ==> r == ThreeOfAKindScore(slot)
  {
    if slot.Some? then Sum(slot.value) else 0
  }

  /** The score of box i, from the throw recorded in that box alone. */
  function BoxScore(card: Card, i: nat): (r: int)
    requires |card| == 13 && i < 13
    ensures card[i].None? ==> r == 0
  {
    if i < 6 then UpperScore(card[i], i)
    else if i == 6 then ThreeOfAKindScore(card[6])
    else if i == 7 then FourOfAKindScore(card[7])
    else if i == 8 then FullHouseScore(card[8])
    else if i == 9 then LowStraightScore(card[9])
    else if i == 10 then HighStraightScore(card[10])
    else if i == YahtzeeBox then YahtzeeScore(card[11])
    else ChanceScore(card[12])
  }

  /** The thirteen box scores. */
  function BoxScores(card: Card): (scores: seq<int>)
    requires |card| == 13
    ensures |scores| == 13
  {
    seq(13, i requires 0 <= i < 13 => BoxScore(card, i))
  }

  /** 35 points when the six upper boxes add up to at least 63, else nothing. */
  function UpperBonus(card: Card): (r: int)
    requires |card| == 13
    ensures r in {0, 35}
  {
    if Sum(BoxScores(card)[..6]) >= 63 then 35 else 0
  }

  /** The boxes below n, other than the Yahtzee box, that hold a Yahtzee. */
  ghost function YahtzeeBoxesBelow(card: Card, n: nat): (boxes: set<int>)
    requires |card| == 13 && n <= 13
  {
    set i | 0 <= i < n && i != YahtzeeBox && IsYahtzee(card[i])
  }

  /** Counts the boxes below n, other than the Yahtzee box, that hold a Yahtzee. */
  function OtherYahtzees(card: Card, n: nat): (r: nat)
    requires |card| == 13 && n <= 13
    ensures r <= n && (n > YahtzeeBox ==> r < n)
  {
    if n == 0 then 0
    else OtherYahtzees(card, n - 1) + (if n - 1 != YahtzeeBox && IsYahtzee(card[n - 1]) then 1 else 0)
  }

  /**
   * 100 points for every other box holding a Yahtzee, but only when the
   * Yahtzee box itself holds one.
   */
  function YahtzeeBonus(card: Card): (r: int)
    requires |card| == 13
    ensures r % 100 == 0 && 0 <= r <= 1200
    ensures !IsYahtzee(card[YahtzeeBox]) ==> r == 0
  {
    if IsYahtzee(card[YahtzeeBox]) then 100 * OtherYahtzees(card, 13) else 0
  }

  /**
   * The scoreboard: entries 0-12 are the box scores, 13 the upper bonus,
   * 14 the multi-Yahtzee bonus and 15 the total.
   */
  function Scoreboard(card: Card): (board: seq<int>)
    requires |card| == 13
    ensures |board| == 16
  {
    Board(BoxScores(card), UpperBonus(card), YahtzeeBonus(card))
  }

  /** Thirteen box scores and the two bonuses, followed by their total. */
  function Board(boxes: seq<int>, upper: int, yahtzee: int): (board: seq<int>)
    ensures |board| == |boxes| + 3
  {
    boxes + [upper, yahtzee, Sum(boxes) + upper + yahtzee]
  }

  // ---------------------------------------------------------------------------
  // Lemmas about sums.

  lemma {:induction false} SumAppend(a: seq<int>, b: seq<int>)
    ensures Sum(a + b) == Sum(a) + Sum(b)
  {
    if a != [] {
      assert (a + b)[1..] == a[1..] + b;
      SumAppend(a[1..], b);
    } else {
      assert a + b == b;
    }
  }

  lemma SumOfTwo(a: int, b: int)
    ensures Sum([a, b]) == a + b
  {
    var empty: seq<int> := [];
    assert [b][1..] == empty && Sum(empty) == 0;
    assert Sum([b]) == b;
    assert [a, b][1..] == [b];
  }

  // ---------------------------------------------------------------------------
  // What each box score means.

  /**
   * Upper box i scores i+1 for every die showing face i+1 in the throw
   * recorded there, and nothing when the box is empty.
   */
  lemma UpperBoxRule(slot: Slot, i: nat)
    requires ValidSlot(slot) && i < 6
    ensures UpperScore(slot, i) == (i + 1) * (if slot.Some? then Count(slot.value, i + 1) else 0)
    ensures 0 <= UpperScore(slot, i) <= 5 * (i + 1)
  {
    var h := Histogram(slot)[i];
    if slot.Some? {
      assert h == Count(slot.value, i + 1) <= 5;
    }
    ScaleBound(i + 1, h, 5);
  }

  lemma ScaleBound(k: nat, h: nat, m: nat)
    requires h <= m
    ensures k * h <= k * m
  {
  }

  /**
   * The boxes with a fixed value score either that value or nothing: 25 for
   * a full house (a pair and a triple), 30 for a throw showing a run of four
   * faces, 40 for a run of five faces, 50 for five equal dice.
   */
  lemma FixedValueBoxes(slot: Slot)
    requires ValidSlot(slot)
    ensures FullHouseScore(slot) in {0, 25} && (FullHouseScore(slot) == 25 <==> IsFullHouse(slot))
    ensures LowStraightScore(slot) in {0, 30}
    ensures LowStraightScore(slot) == 30 <==>
      slot.Some? && (ShowsRun(slot.value, 1, 4) || ShowsRun(slot.value, 2, 4) || ShowsRun(slot.value, 3, 4))
    ensures HighStraightScore(slot) in {0, 40}
    ensures HighStraightScore(slot) == 40 <==> slot.Some? && (ShowsRun(slot.value, 1, 5) || ShowsRun(slot.value, 2, 5))
    ensures YahtzeeScore(slot) in {0, 50}
    ensures YahtzeeScore(slot) == 50 <==> slot.Some? && forall k :: 0 <= k < 5 ==> slot.value[k] == slot.value[0]
  {
    if slot.Some? {
      LowStraightIsRunOfFour(slot.value);
      HighStraightIsRunOfFive(slot.value);
      YahtzeeIffAllSame(slot.value);
    }
  }

  /**
   * Three (Four) of a Kind scores the sum of the dice when some face is shown
   * at least three (four) times, and nothing otherwise; every such score lies
   * in 0..30, and a qualifying one in 5..30.
   */
  lemma KindBoxes(slot: Slot)
    requires ValidSlot(slot)
    ensures ThreeOfAKindScore(slot) ==
      if slot.Some? && exists f :: IsFace(f) && Count(slot.value, f) >= 3 then Sum(slot.value) else 0
    ensures FourOfAKindScore(slot) ==
      if slot.Some? && exists f :: IsFace(f) && Count(slot.value, f) >= 4 then Sum(slot.value) else 0
    ensures 0 <= ThreeOfAKindScore(slot) <= 30 && 0 <= FourOfAKindScore(slot) <= 30
    ensures IsThreeOfAKind(slot) ==> ThreeOfAKindScore(slot) >= 5
  {
    if slot.Some? {
      KindsByMultiplicity(slot.value);
      SumBounds(slot.value);
    }
  }

  /** Chance scores the sum of the dice, between 5 and 30, of any recorded hand, and 0 for an empty box. */
  lemma ChanceBox(slot: Slot)
    requires ValidSlot(slot)
    ensures slot.None? ==> ChanceScore(slot) == 0
    ensures slot.Some? ==> 5 <= ChanceScore(slot) <= 30
  {
    if slot.Some? {
      SumBounds(slot.value);
    }
  }

  // ---------------------------------------------------------------------------
  // What the bonuses and the total mean.

  /** The upper bonus is 35 when the six upper scores add up to at least 63, and 0 otherwise. */
  lemma UpperBonusRule(card: Card)
    requires |card| == 13
    ensures var board := Scoreboard(card);
      board[13] == (if board[0] + board[1] + board[2] + board[3] + board[4] + board[5] >= 63 then 35 else 0)
  {
    var boxes := BoxScores(card);
    SumOfSix(boxes[..6]);
    assert Scoreboard(card)[..13] == boxes;
  }

  /** The number of indices below n that satisfy p. */
  ghost function CountBelow(p: int -> bool, n: nat): (r: nat)
  {
    if n == 0 then 0 else CountBelow(p, n - 1) + (if p(n - 1) then 1 else 0)
  }

  /** Counting the indices below n that satisfy p gives the size of the set of those indices. */
  lemma {:induction false} CountBelowIsSize(p: int -> bool, n: nat)
    ensures CountBelow(p, n) == |set i | 0 <= i < n && p(i)|
  {
    var here := set i | 0 <= i < n && p(i);
    if n == 0 {
      assert here == {};
    } else {
      CountBelowIsSize(p, n - 1);
      var below := set i | 0 <= i < n - 1 && p(i);
      assert n - 1 !in below;
      if p(n - 1) {
        assert here == below + {n - 1} by {
          forall i | i in here ensures i in below + {n - 1} { }
          forall i | i in below + {n - 1} ensures i in here { }
        }
      } else {
        assert here == below by {
          forall i | i in here ensures i in below { }
          forall i | i in below ensures i in here { }
        }
      }
    }
  }

  /** The recursive count agrees with the set of the other boxes holding a Yahtzee. */
  lemma {:induction false} OtherYahtzeesCountsBoxes(card: Card, n: nat)
    requires |card| == 13 && n <= 13
    ensures OtherYahtzees(card, n) == |YahtzeeBoxesBelow(card, n)|
  {
    var p := i => 0 <= i < 13 && i != YahtzeeBox && IsYahtzee(card[i]);
    OtherYahtzeesByPredicate(card, p, n);
    CountBelowIsSize(p, n);
    assert YahtzeeBoxesBelow(card, n) == set i | 0 <= i < n && p(i);
  }

  lemma {:induction false} OtherYahtzeesByPredicate(card: Card, p: int -> bool, n: nat)
    requires |card| == 13 && n <= 13
    requires forall i :: 0 <= i < 13 ==> p(i) == (i != YahtzeeBox && IsYahtzee(card[i]))
    ensures OtherYahtzees(card, n) == CountBelow(p, n)
  {
    if n > 0 {
      OtherYahtzeesByPredicate(card, p, n - 1);
    }
  }

  /**
   * The multi-Yahtzee bonus is 0 unless the Yahtzee box holds five equal
   * dice; then it is 100 for every other box holding five equal dice. It is
   * always a multiple of 100 between 0 and 1200.
   */
  lemma YahtzeeBonusRule(card: Card)
    requires |card| == 13
    ensures var board := Scoreboard(card);
      && (!IsYahtzee(card[YahtzeeBox]) ==> board[14] == 0)
      && (IsYahtzee(card[YahtzeeBox]) ==> board[14] == 100 * |YahtzeeBoxesBelow(card, 13)|)
      && board[14] % 100 == 0 && 0 <= board[14] <= 1200
  {
    OtherYahtzeesCountsBoxes(card, 13);
  }

  /**
   * The total is the sum of the first fifteen entries: the thirteen box
   * scores and both bonuses.
   */
  lemma TotalRule(card: Card)
    requires |card| == 13
    ensures var board := Scoreboard(card);
      board[15] == Sum(board[..15]) == Sum(board[..13]) + board[13] + board[14]
  {
    var board := Scoreboard(card);
    assert board[..15] == board[..13] + [board[13], board[14]];
    assert board[..13] == BoxScores(card);
    SumAppend(board[..13], [board[13], board[14]]);
    SumOfTwo(board[13], board[14]);
  }

  /** Thirteen entries that hold the score of each box in turn are the box scores. */
  lemma BoxesByEntries(card: Card, t: seq<int>)
    requires |card| == 13 && |t| == 13
    requires forall j :: 0 <= j < 6 ==> t[j] == UpperScore(card[j], j)
    requires t[6] == ThreeOfAKindScore(card[6]) && t[7] == FourOfAKindScore(card[7])
    requires t[8] == FullHouseScore(card[8]) && t[9] == LowStraightScore(card[9])
    requires t[10] == HighStraightScore(card[10]) && t[11] == YahtzeeScore(card[11])
    requires t[12] == ChanceScore(card[12])
    ensures t == BoxScores(card)
  {
    forall j | 0 <= j < 13 ensures t[j] == BoxScores(card)[j] {
      assert BoxScores(card)[j] == BoxScore(card, j);
    }
  }

  /** Six entries holding the upper box scores decide the upper bonus. */
  lemma UpperBonusByEntries(card: Card, upper: seq<int>)
    requires |card| == 13 && |upper| == 6
    requires forall j :: 0 <= j < 6 ==> upper[j] == UpperScore(card[j], j)
    ensures UpperBonus(card) == if Sum(upper) >= 63 then 35 else 0
  {
    var boxes := BoxScores(card);
    forall j | 0 <= j < 6 ensures boxes[..6][j] == upper[j] {
      assert boxes[j] == BoxScore(card, j);
    }
    assert boxes[..6] == upper;
  }

  /**
   * Replacing a last entry of 0 by the sum of all sixteen entries gives the
   * sum of the first fifteen.
   */
  lemma TotalByEntries(e: seq<int>)
    requires |e| == 16 && e[15] == 0
    ensures e[15 := Sum(e)] == Board(e[..13], e[13], e[14])
  {
    assert e == e[..15] + [0];
    SumAppend(e[..15], [0]);
    assert Sum([0]) == 0 by { assert [0][1..] == []; }
    assert e[..15] == e[..13] + [e[13], e[14]];
    SumAppend(e[..13], [e[13], e[14]]);
    SumOfTwo(e[13], e[14]);
  }

  /**
   * Sixteen entries holding the thirteen box scores, the upper bonus (35
   * when the six upper entries reach 63) and the multi-Yahtzee bonus, and
   * whose last entry is still 0, become the scoreboard once that last entry
   * is replaced by the sum of all sixteen.
   */
  lemma ScoreboardByEntries(card: Card, e: seq<int>, upper: seq<int>)
    requires |card| == 13 && |e| == 16 && |upper| == 6
    requires forall j :: 0 <= j < 6 ==> e[j] == upper[j] == UpperScore(card[j], j)
    requires e[6] == ThreeOfAKindScore(card[6]) && e[7] == FourOfAKindScore(card[7])
    requires e[8] == FullHouseScore(card[8]) && e[9] == LowStraightScore(card[9])
    requires e[10] == HighStraightScore(card[10]) && e[11] == YahtzeeScore(card[11])
    requires e[12] == ChanceScore(card[12])
    requires e[13] == (if Sum(upper) >= 63 then 35 else 0)
    requires e[14] == YahtzeeBonus(card) && e[15] == 0
    ensures e[15 := Sum(e)] == Scoreboard(card)
  {
    BoxesByEntries(card, e[..13]);
    UpperBonusByEntries(card, upper);
    TotalByEntries(e);
  }

  /** Each box is scored from the throw recorded in that box alone. */
  lemma BoxScoredAlone(card: Card, other: Card, i: nat)
    requires |card| == 13 && |other| == 13 && i < 13 && card[i] == other[i]
    ensures Scoreboard(card)[i] == Scoreboard(other)[i]
  {
  }

  // ---------------------------------------------------------------------------
  // Worked examples.

  /** A card whose Ones, Yahtzee and Chance boxes hold five ones and whose other boxes hold 2-3-4-5-6. */
  function ExampleCard(): (card: Card)
    ensures |card| == 13
  {
    var ones, run := Some([1, 1, 1, 1, 1]), Some([2, 3, 4, 5, 6]);
    [ones, run, run, run, run, run, run, run, run, run, run, ones, ones]
  }

  /**
   * On the example card the Ones and Chance boxes each add 100 to the
   * multi-Yahtzee bonus, for 200.
   */
  lemma TwoExtraYahtzees()
    ensures YahtzeeBonus(ExampleCard()) == 200
  {
    var card := ExampleCard();
    forall i | 0 <= i < 13 ensures IsYahtzee(card[i]) <==> i == 0 || i == 11 || i == 12 {
      ExampleBox(i);
      if i == 0 || i == 11 || i == 12 { FiveOnesScores(); } else { SmallRunScores(); }
    }
    assert YahtzeeBoxesBelow(card, 13) == {0, 12};
    OtherYahtzeesCountsBoxes(card, 13);
  }

  lemma ExampleBox(i: nat)
    requires i < 13
    ensures ExampleCard()[i] == if i == 0 || i == 11 || i == 12 then Some([1, 1, 1, 1, 1]) else Some([2, 3, 4, 5, 6])
  {
  }

  lemma FiveOnesScores()
    ensures var ones := Some([1, 1, 1, 1, 1]);
      && UpperScore(ones, 0) == 5 && ChanceScore(ones) == 5 && YahtzeeScore(ones) == 50 && IsYahtzee(ones)
  {
    var ones := [1, 1, 1, 1, 1];
    assert Histogram(Some(ones))[0] == 5;
  }

  lemma SmallRunScores()
    ensures var run := Some([2, 3, 4, 5, 6]);
      && (forall i :: 1 <= i < 6 ==> UpperScore(run, i) == i + 1)
      && ThreeOfAKindScore(run) == 0 && FourOfAKindScore(run) == 0 && FullHouseScore(run) == 0
      && LowStraightScore(run) == 30 && HighStraightScore(run) == 40
      && !IsYahtzee(run)
  {
    var run := [2, 3, 4, 5, 6];
    assert Histogram(Some(run)) == [0, 1, 1, 1, 1, 1];
  }

  /**
   * The upper bonus threshold is inclusive: three dice of each face in the
   * upper boxes make exactly 63 and earn the bonus; with one die fewer in the
   * Ones box the subtotal is 62 and earns nothing.
   */
  lemma UpperBonusBoundary(card: Card)
    requires |card| == 13
    requires forall i :: 1 <= i < 6 ==> card[i].Some? && Count(card[i].value, i + 1) == 3
    requires card[0].Some? && Count(card[0].value, 1) in {2, 3}
    ensures Sum(BoxScores(card)[..6]) == if Count(card[0].value, 1) == 3 then 63 else 62
    ensures UpperBonus(card) == if Count(card[0].value, 1) == 3 then 35 else 0
  {
    var boxes := BoxScores(card);
    SumOfSix(boxes[..6]);
    UpperEntry(card, 0);
    UpperEntry(card, 1);
    UpperEntry(card, 2);
    UpperEntry(card, 3);
    UpperEntry(card, 4);
    UpperEntry(card, 5);
    assert boxes[1] == 6 && boxes[2] == 9 && boxes[3] == 12 && boxes[4] == 15 && boxes[5] == 18;
  }

  lemma UpperEntry(card: Card, i: nat)
    requires |card| == 13 && i < 6 && card[i].Some?
    ensures BoxScores(card)[i] == (i + 1) * Count(card[i].value, i + 1)
  {
    assert BoxScores(card)[i] == UpperScore(card[i], i);
  }

  /** A pair and a triple is a full house; four of a kind and a single is not. */
  lemma FullHouseExamples()
    ensures FullHouseScore(Some([2, 2, 3, 3, 3])) == 25
    ensures FullHouseScore(Some([2, 2, 2, 2, 3])) == 0
  {
    var a, b := [2, 2, 3, 3, 3], [2, 2, 2, 2, 3];
    CountOfFive(a, 2);
    CountOfFive(a, 3);
    assert Histogram(Some(a))[1] == 2 && Histogram(Some(a))[2] == 3;
    forall f | 1 <= f <= 6 ensures Count(b, f) == if f == 2 then 4 else if f == 3 then 1 else 0 {
      CountOfFive(b, f);
    }
  }

  /**
   * 1-2-3-4-4 is a low straight but not a high one; 2-3-4-5-5 is a low
   * straight but not a high one either, since neither 1 nor 6 is shown;
   * 1-2-3-4-5 is both.
   */
  lemma StraightExamples()
    ensures LowStraightScore(Some([1, 2, 3, 4, 4])) == 30 && HighStraightScore(Some([1, 2, 3, 4, 4])) == 0
    ensures LowStraightScore(Some([2, 3, 4, 5, 5])) == 30 && HighStraightScore(Some([2, 3, 4, 5, 5])) == 0
    ensures LowStraightScore(Some([1, 2, 3, 4, 5])) == 30 && HighStraightScore(Some([1, 2, 3, 4, 5])) == 40
  {
  }
}
