/**
 * Dice classification for the Yahtzee game: the face histogram of a throw and
 * the tests that classify a throw (three and four of a kind, Yahtzee, full
 * house, low and high straight).
 *
 * A throw is a list of die values; a box of the score card, and the argument
 * of every classifier, is either a throw or nothing (an empty box).
 */
module Dice {

  datatype Option<+T> = None | Some(value: T)

  /** A throw that may be absent: an empty box of the score card is None. */
  type Slot = Option<seq<int>>

  predicate IsFace(x: int) { 1 <= x <= 6 }

  predicate AllFaces(s: seq<int>) { forall i :: 0 <= i < |s| ==> IsFace(s[i]) }

  /** A hand: exactly five dice, each showing a face 1..6. */
  predicate IsHand(s: seq<int>) { |s| == 5 && AllFaces(s) }

  /** What a box of the score card may hold: nothing, or a hand. */
  predicate ValidSlot(slot: Slot) { slot.Some? ==> IsHand(slot.value) }

  /** The sum of a list of integers (the sum of the dice of a throw). */
  function Sum(s: seq<int>): (r: int)
  {
    if s == [] then 0 else s[0] + Sum(s[1..])
  }

  /** The number of dice of s that show f; never more than the number of dice. */
  function Count(s: seq<int>, f: int): (n: nat)
    ensures n <= |s|
  {
    if s == [] then 0 else (if s[0] == f then 1 else 0) + Count(s[1..], f)
  }

  /**
   * The face histogram of a throw: bucket f-1 is the number of dice showing
   * face f; an absent throw has the all-zero histogram.
   */
  function Histogram(dice: Slot): (count: seq<int>)
    ensures |count| == 6
    ensures dice.None? ==> count == [0, 0, 0, 0, 0, 0]
    ensures dice.Some? ==> forall i :: 0 <= i < 6 ==> count[i] == Count(dice.value, i + 1)
  {
    match dice
    case None => [0, 0, 0, 0, 0, 0]
    case Some(s) => seq(6, i => Count(s, i + 1))
  }

  /**
   * Builds the histogram by one pass over the dice, incrementing the bucket
   * of each die's face.
   */
  method DiceToCount(dice: Slot) returns (count: seq<int>)
    requires dice.Some? ==> AllFaces(dice.value)
    ensures count == Histogram(dice)
  {
    if dice.None? {
      return [0, 0, 0, 0, 0, 0];
    }
    var s := dice.value;
    var c := new int[6](_ => 0);
    for k := 0 to |s|
      invariant forall f :: 0 <= f < 6 ==> c[f] == Count(s[..k], f + 1)
    {
      assert s[..k + 1] == s[..k] + [s[k]];
      forall f | IsFace(f) ensures Count(s[..k + 1], f) == Count(s[..k], f) + if s[k] == f then 1 else 0 {
        CountAppend(s[..k], [s[k]], f);
      }
      c[s[k] - 1] := c[s[k] - 1] + 1;
    }
    assert s[..|s|] == s;
    count := c[..];
  }

  // ---------------------------------------------------------------------------
  // Classifiers. Each is total and false for an absent throw.

  /** Three of a kind: some bucket of the histogram holds 3, 4 or 5 dice. */
  predicate IsThreeOfAKind(dice: Slot)
    ensures dice.None? ==> !IsThreeOfAKind(dice)
  {
    var count := Histogram(dice);
    3 in count || 4 in count || 5 in count
  }

  /** Four of a kind: some bucket holds 4 or 5 dice. */
  predicate IsFourOfAKind(dice: Slot)
    ensures dice.None? ==> !IsFourOfAKind(dice)
    ensures IsFourOfAKind(dice) ==> IsThreeOfAKind(dice)
  {
    var count := Histogram(dice);
    4 in count || 5 in count
  }

  /** Yahtzee (five of a kind): some bucket holds 5 dice. */
  predicate IsYahtzee(dice: Slot)
    ensures dice.None? ==> !IsYahtzee(dice)
    ensures IsYahtzee(dice) ==> IsFourOfAKind(dice)
  {
    5 in Histogram(dice)
  }

  /** Full house: the histogram holds a bucket of 2 and a bucket of 3. */
  predicate IsFullHouse(dice: Slot)
    ensures dice.None? ==> !IsFullHouse(dice)
  {
    var count := Histogram(dice);
    2 in count && 3 in count
  }

  /**
   * Low straight, by three explicit pair tests: 3 and 4 are shown, together
   * with 1 and 2, or 2 and 5, or 5 and 6.
   */
  predicate IsLowStraight(dice: Slot)
    ensures dice.None? ==> !IsLowStraight(dice)
  {
    dice.Some? &&
    var d := dice.value;
    3 in d && 4 in d && ((1 in d && 2 in d) || (2 in d && 5 in d) || (5 in d && 6 in d))
  }

  /** High straight: 2, 3, 4 and 5 are shown, together with 1 or 6. */
  predicate IsHighStraight(dice: Slot)
    ensures dice.None? ==> !IsHighStraight(dice)
    ensures IsHighStraight(dice) ==> IsLowStraight(dice)
  {
    dice.Some? &&
    var d := dice.value;
    2 in d && 3 in d && 4 in d && 5 in d && (1 in d || 6 in d)
  }

  /** The throw shows every face lo, lo+1, ..., lo+len-1. */
  predicate ShowsRun(s: seq<int>, lo: int, len: nat)
  {
    forall f :: lo <= f < lo + len ==> f in s
  }

  // ---------------------------------------------------------------------------
  // Lemmas about the histogram.

  /** Counting over two lists one after the other adds the counts. */
  lemma {:induction false} CountAppend(s: seq<int>, t: seq<int>, f: int)
    ensures Count(s + t, f) == Count(s, f) + Count(t, f)
  {
    if s == [] {
      assert s + t == t;
    } else {
      assert (s + t)[1..] == s[1..] + t;
      CountAppend(s[1..], t, f);
    }
  }

  /** The count of a face among five dice, written out die by die. */
  lemma CountOfFive(s: seq<int>, f: int)
    requires |s| == 5
    ensures Count(s, f) == (if s[0] == f then 1 else 0) + (if s[1] == f then 1 else 0)
      + (if s[2] == f then 1 else 0) + (if s[3] == f then 1 else 0) + (if s[4] == f then 1 else 0)
  {
    assert Count(s[4..], f) == (if s[4] == f then 1 else 0) by { assert s[4..][1..] == []; }
    assert Count(s[3..], f) == (if s[3] == f then 1 else 0) + Count(s[4..], f) by { assert s[3..][1..] == s[4..]; }
    assert Count(s[2..], f) == (if s[2] == f then 1 else 0) + Count(s[3..], f) by { assert s[2..][1..] == s[3..]; }
    assert Count(s[1..], f) == (if s[1] == f then 1 else 0) + Count(s[2..], f) by { assert s[1..][1..] == s[2..]; }
  }

  /** Count agrees with the multiplicity of f in the multiset of the dice. */
  lemma {:induction false} CountIsMultiplicity(s: seq<int>, f: int)
    ensures Count(s, f) == multiset(s)[f]
  {
    if s != [] {
      assert s == [s[0]] + s[1..];
      CountIsMultiplicity(s[1..], f);
    }
  }

  /** A face is shown by all |s| dice exactly when every die shows it. */
  lemma {:induction false} FullCount(s: seq<int>, x: int)
    ensures Count(s, x) == |s| <==> forall i :: 0 <= i < |s| ==> s[i] == x
  {
    if s != [] {
      var t := s[1..];
      FullCount(t, x);
      if forall i :: 0 <= i < |s| ==> s[i] == x {
        assert forall i :: 0 <= i < |t| ==> t[i] == x by {
          forall i | 0 <= i < |t| ensures t[i] == x { assert t[i] == s[i + 1]; }
        }
      }
      if Count(s, x) == |s| {
        assert s[0] == x;
        forall i | 0 <= i < |s| ensures s[i] == x {
          if i > 0 { assert s[i] == t[i - 1]; }
        }
      }
    }
  }

  /** A face that appears in the throw is counted at least once. */
  lemma {:induction false} CountShown(s: seq<int>, x: int)
    ensures x in s <==> Count(s, x) >= 1
  {
    if s != [] {
      CountShown(s[1..], x);
      assert s == [s[0]] + s[1..];
    }
  }

  /** The sum of a list of exactly six numbers, written out. */
  lemma SumOfSix(c: seq<int>)
    requires |c| == 6
    ensures Sum(c) == c[0] + c[1] + c[2] + c[3] + c[4] + c[5]
  {
    assert Sum(c[5..]) == c[5] by { assert c[5..][1..] == []; }
    assert Sum(c[4..]) == c[4] + Sum(c[5..]) by { assert c[4..][1..] == c[5..]; }
    assert Sum(c[3..]) == c[3] + Sum(c[4..]) by { assert c[3..][1..] == c[4..]; }
    assert Sum(c[2..]) == c[2] + Sum(c[3..]) by { assert c[2..][1..] == c[3..]; }
    assert Sum(c[1..]) == c[1] + Sum(c[2..]) by { assert c[1..][1..] == c[2..]; }
  }

  /** The buckets of a throw of faces 1..6 add up to the number of dice. */
  lemma {:induction false} HistogramTotal(s: seq<int>)
    requires AllFaces(s)
    ensures Sum(Histogram(Some(s))) == |s|
  {
    SumOfSix(Histogram(Some(s)));
    if s != [] {
      HistogramTotal(s[1..]);
      SumOfSix(Histogram(Some(s[1..])));
    }
  }

  /**
   * The histogram of a hand: six buckets, each between 0 and 5, adding up to
   * five; the histogram of an absent throw is all zeros.
   */
  lemma HistogramOfHand(h: seq<int>)
    requires IsHand(h)
    ensures forall i :: 0 <= i < 6 ==> 0 <= Histogram(Some(h))[i] <= 5
    ensures Sum(Histogram(Some(h))) == 5
  {
    HistogramTotal(h);
  }

  /** The sum of a throw of faces 1..6 lies between |s| and 6|s|. */
  lemma {:induction false} SumBounds(s: seq<int>)
    requires AllFaces(s)
    ensures |s| <= Sum(s) <= 6 * |s|
  {
    if s != [] {
      SumBounds(s[1..]);
    }
  }

  // ---------------------------------------------------------------------------
  // What the classifiers mean for a hand.

  /** A hand is a Yahtzee exactly when all five dice show the same face. */
  lemma YahtzeeIffAllSame(h: seq<int>)
    requires IsHand(h)
    ensures IsYahtzee(Some(h)) <==> forall i :: 0 <= i < 5 ==> h[i] == h[0]
  {
    var count := Histogram(Some(h));
    FullCount(h, h[0]);
    if IsYahtzee(Some(h)) {
      var f :| 0 <= f < 6 && count[f] == 5;
      FullCount(h, f + 1);
    } else {
      assert count[h[0] - 1] == Count(h, h[0]);
    }
  }

  /** A hand is three (four) of a kind exactly when some face is shown at least three (four) times. */
  lemma KindsByMultiplicity(h: seq<int>)
    requires IsHand(h)
    ensures IsThreeOfAKind(Some(h)) <==> exists f :: IsFace(f) && Count(h, f) >= 3
    ensures IsFourOfAKind(Some(h)) <==> exists f :: IsFace(f) && Count(h, f) >= 4
  {
    var count := Histogram(Some(h));
    HistogramOfHand(h);
    if exists f :: IsFace(f) && Count(h, f) >= 3 {
      var f :| IsFace(f) && Count(h, f) >= 3;
      assert count[f - 1] in {3, 4, 5};
    }
    if exists f :: IsFace(f) && Count(h, f) >= 4 {
      var f :| IsFace(f) && Count(h, f) >= 4;
      assert count[f - 1] in {4, 5};
    }
    if IsThreeOfAKind(Some(h)) {
      var i :| 0 <= i < 6 && count[i] >= 3;
      assert IsFace(i + 1) && Count(h, i + 1) >= 3;
    }
    if IsFourOfAKind(Some(h)) {
      var i :| 0 <= i < 6 && count[i] >= 4;
      assert IsFace(i + 1) && Count(h, i + 1) >= 4;
    }
  }

  /**
   * The three pair tests of the low straight accept exactly the throws that
   * show a run of four consecutive faces (1-4, 2-5 or 3-6).
   */
  lemma LowStraightIsRunOfFour(s: seq<int>)
    ensures IsLowStraight(Some(s)) <==> ShowsRun(s, 1, 4) || ShowsRun(s, 2, 4) || ShowsRun(s, 3, 4)
  {
    if ShowsRun(s, 1, 4) {
      assert 1 in s && 2 in s && 3 in s && 4 in s;
    }
    if ShowsRun(s, 2, 4) {
      assert 2 in s && 3 in s && 4 in s && 5 in s;
    }
    if ShowsRun(s, 3, 4) {
      assert 3 in s && 4 in s && 5 in s && 6 in s;
    }
  }

  /** A high straight is a throw that shows a run of five consecutive faces (1-5 or 2-6). */
  lemma HighStraightIsRunOfFive(s: seq<int>)
    ensures IsHighStraight(Some(s)) <==> ShowsRun(s, 1, 5) || ShowsRun(s, 2, 5)
  {
    if ShowsRun(s, 1, 5) {
      assert 1 in s && 2 in s && 3 in s && 4 in s && 5 in s;
    }
    if ShowsRun(s, 2, 5) {
      assert 2 in s && 3 in s && 4 in s && 5 in s && 6 in s;
    }
  }

  /**
   * In a high straight every face is shown at most once, so a high straight
   * is neither three of a kind nor a full house.
   */
  lemma HighStraightHasNoRepeats(h: seq<int>)
    requires IsHand(h) && IsHighStraight(Some(h))
    ensures forall i :: 0 <= i < 6 ==> Histogram(Some(h))[i] <= 1
    ensures !IsThreeOfAKind(Some(h)) && !IsFullHouse(Some(h))
  {
    var count := Histogram(Some(h));
    HistogramOfHand(h);
    SumOfSix(count);
    CountShown(h, 2);
    CountShown(h, 3);
    CountShown(h, 4);
    CountShown(h, 5);
    CountShown(h, 1);
    CountShown(h, 6);
    assert count[1] >= 1 && count[2] >= 1 && count[3] >= 1 && count[4] >= 1;
    assert count[0] >= 1 || count[5] >= 1;
  }

  /** Two different buckets of six non-negative buckets hold no more than all six together. */
  lemma TwoBuckets(c: seq<int>, i: int, j: int)
    requires |c| == 6 && forall k :: 0 <= k < 6 ==> c[k] >= 0
    requires 0 <= i < 6 && 0 <= j < 6 && i != j
    ensures c[i] + c[j] <= c[0] + c[1] + c[2] + c[3] + c[4] + c[5]
  {
  }

  /** A full house holds exactly two faces, so it is never four of a kind (nor a Yahtzee). */
  lemma FullHouseExcludesFourOfAKind(h: seq<int>)
    requires IsHand(h) && IsFullHouse(Some(h))
    ensures !IsFourOfAKind(Some(h)) && !IsYahtzee(Some(h))
    ensures exists a, b :: IsFace(a) && IsFace(b) && a != b && Count(h, a) == 2 && Count(h, b) == 3
  {
    var count := Histogram(Some(h));
    HistogramOfHand(h);
    SumOfSix(count);
    var a :| 0 <= a < 6 && count[a] == 2;
    var b :| 0 <= b < 6 && count[b] == 3;
    if 4 in count || 5 in count {
      var i :| 0 <= i < 6 && count[i] >= 4;
      TwoBuckets(count, i, a);
    }
    assert Count(h, a + 1) == 2 && Count(h, b + 1) == 3;
  }
}
