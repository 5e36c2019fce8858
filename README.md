# Yahtzee, modelled in Dafny

This project models the console Yahtzee game of `yatzee.py`: a single player
throws five dice up to three times per round, then records the throw in one
of the 13 boxes of a score card. After 13 rounds the card is full and the
game reports the final score.

The model has three modules.

- `Dice` (`dice.dfy`) covers the throw and its classification:
  - a throw is a list of die values;
  - a box of the score card is `Option<seq<int>>`, where `None` is a blank box;
  - `DiceToCount` builds the face histogram in one loop and is proved equal
    to the specification function `Histogram`;
  - the classifiers are predicates over a box, with the same tests the source
    makes: three and four of a kind, Yahtzee, full house, and the low
    straight's three-branch test and the high straight test;
  - lemmas say what each classifier means for a hand of five dice.
- `Scoring` (`scoring.dfy`) holds the scoring rules as functions of the
  13-box card:
  - the box scores;
  - the upper bonus: 35 when the upper section reaches 63;
  - the multi-Yahtzee bonus;
  - the 16-entry `Scoreboard`.

  Lemmas state each rule in terms of the dice.
- `Game` (`game.dfy`) holds the class `Yahtzee`:
  - fields: the card (`score`), the dice (`dice`) and the throws left
    (`throwsLeft`);
  - the methods `Roll`, `Record`, `GetScore`, `RollRound`, `ChooseBox`,
    `PlayRound` and `Run`. Each is proved against the functions above;
  - `GetScore` fills a local 16-entry list exactly as the source does,
    including the total taken over all sixteen entries while entry 15 is
    still 0.

Randomness and the console are replaced by supplied values:

- `draws` are the five values drawn for a roll. A die takes its drawn value
  only when its position is selected.
- `selections` are the reroll selections typed after the first and the second
  roll, already parsed into position lists.
- `choices` are the box numbers typed when scoring, in the order typed.

Points where the code differs from its own comments or from common
readings of the Yahtzee rules. The model follows the code:

- The `_roll` docstring speaks of indices 0-4. The code selects the
  1-based positions 1-5 (`yatzee.py:101-103`), and so does `Rerolled`.
- `_roll` does not check that a throw is left, and neither does `Roll`.
  Only the round loop keeps the count in 0..3.
- The `running` flag never stops a second game; it is not modelled.
- On 2-3-4-5-6 the code scores 0 for Three of a Kind and i+1 in each of the
  boxes Twos to Sixes (`SmallRunScores`). On 2-3-4-5-5 it scores 0 for High
  Straight, because neither 1 nor 6 is shown (`StraightExamples`). A
  reading that gives 20 for Three of a Kind on 2-3-4-5-6, or 40 for
  2-3-4-5-5 as a high straight, does not match the code.

## Model

| member | source | states |
|---|---|---|
| Dice.Histogram | yatzee.py:47-53 | six buckets; all zero for a blank box; otherwise bucket f-1 is the number of dice showing f |
| Dice.DiceToCount | yatzee.py:47-53 | the loop that increments the bucket of each die returns exactly `Histogram` of the box |
| Dice.CountIsMultiplicity | yatzee.py:50-52 | the per-face count equals the multiplicity of the face in the multiset of the dice |
| Dice.HistogramTotal | yatzee.py:50-53 | the buckets of a throw of faces 1..6 add up to the number of dice |
| Dice.HistogramOfHand | yatzee.py:47-53 | for a hand, every bucket lies in 0..5 and the buckets add up to 5 |
| Dice.SumBounds | yatzee.py:125-126 | a throw of faces 1..6 sums to between its length and six times its length |
| Dice.IsThreeOfAKind | yatzee.py:62-63 | false for a blank box |
| Dice.IsFourOfAKind | yatzee.py:72-73 | false for a blank box; four of a kind implies three of a kind |
| Dice.IsYahtzee | yatzee.py:130 | false for a blank box; a Yahtzee (a bucket of 5) implies four of a kind |
| Dice.IsFullHouse | yatzee.py:127 | false for a blank box |
| Dice.IsLowStraight | yatzee.py:82 | false for a blank box |
| Dice.IsHighStraight | yatzee.py:92 | false for a blank box; a high straight is always a low straight |
| Dice.YahtzeeIffAllSame | yatzee.py:130 | a hand has a bucket of 5 exactly when all five dice are equal |
| Dice.FullCount | yatzee.py:130 | a face is counted once per die exactly when every die shows it |
| Dice.CountShown | yatzee.py:82 | a face is in the throw exactly when it is counted at least once |
| Dice.KindsByMultiplicity | yatzee.py:62-73 | three (four) of a kind holds exactly when some face is shown at least three (four) times |
| Dice.LowStraightIsRunOfFour | yatzee.py:82 | the three pair tests accept exactly the throws showing 1-4, 2-5 or 3-6 |
| Dice.HighStraightIsRunOfFive | yatzee.py:92 | the high straight test accepts exactly the throws showing 1-5 or 2-6 |
| Dice.HighStraightHasNoRepeats | yatzee.py:92 | in a high straight hand no face repeats, so it is neither three of a kind nor a full house |
| Dice.FullHouseExcludesFourOfAKind | yatzee.py:127 | a full house hand is a pair of one face and a triple of another, never four of a kind or a Yahtzee |
| Scoring.UpperScore | yatzee.py:120 | never negative, 0 for a blank box; `UpperBoxRule` states its value in terms of the dice |
| Scoring.ThreeOfAKindScore | yatzee.py:125 | non-zero only for a recorded three of a kind; `KindBoxes` states it is the dice sum when some face shows three times |
| Scoring.FourOfAKindScore | yatzee.py:126 | non-zero only for a recorded four of a kind, and then equal to the Three of a Kind score of the same throw; `KindBoxes` states its value |
| Scoring.FullHouseScore | yatzee.py:127 | 0 or 25, and 0 for a blank box; `FixedValueBoxes` states when it is 25 |
| Scoring.LowStraightScore | yatzee.py:128 | 0 or 30, and 0 for a blank box; `FixedValueBoxes` states when it is 30 |
| Scoring.HighStraightScore | yatzee.py:129 | 0 or 40, and 0 for a blank box; a throw scoring 40 here scores 30 as a low straight |
| Scoring.YahtzeeScore | yatzee.py:130-131 | 0 or 50, and 0 for a blank box; a throw scoring 50 here scores its dice sum under both kinds |
| Scoring.ChanceScore | yatzee.py:138 | 0 for a blank box; equal to the Three of a Kind score whenever that is non-zero; `ChanceBox` bounds it |
| Scoring.BoxScore | yatzee.py:119-138 | a blank box scores 0, whichever box it is |
| Scoring.UpperBonus | yatzee.py:122 | 0 or 35; `UpperBonusRule` states when it is 35 |
| Scoring.YahtzeeBonus | yatzee.py:130-137 | a multiple of 100 in 0..1200, and 0 unless the Yahtzee box holds a Yahtzee; `YahtzeeBonusRule` counts the boxes |
| Scoring.BoxScores | yatzee.py:119-138 | thirteen box scores, one per box |
| Scoring.OtherYahtzees | yatzee.py:133-137 | at most n, and fewer than n once the Yahtzee box is below n |
| Scoring.Scoreboard | yatzee.py:116-140 | sixteen entries; their meaning is stated by the rule lemmas below |
| Scoring.Board | yatzee.py:139 | three more entries than box scores |
| Scoring.UpperBoxRule | yatzee.py:119-120 | upper box i scores (i+1) times the number of dice showing i+1, 0 for a blank box, at most 5(i+1) |
| Scoring.KindBoxes | yatzee.py:125-126 | Three (Four) of a Kind scores the dice sum when some face shows three (four) times, else 0; scores lie in 0..30, a qualifying Three of a Kind at least 5 |
| Scoring.FixedValueBoxes | yatzee.py:127-131 | Full House, Low Straight, High Straight and Yahtzee score 0 or 25, 30, 40 and 50, and score their value exactly for a pair plus triple, a run of four, a run of five, five equal dice |
| Scoring.ChanceBox | yatzee.py:138 | Chance scores 0 for a blank box and between 5 and 30 for a recorded hand |
| Scoring.UpperBonusRule | yatzee.py:122 | entry 13 is 35 when entries 0-5 add up to at least 63, else 0 |
| Scoring.UpperBonusBoundary | yatzee.py:122 | three of each upper face make 63 and earn 35; one die fewer in Ones makes 62 and earns 0 |
| Scoring.UpperEntry | yatzee.py:120 | a recorded upper box scores its face value times the count of that face |
| Scoring.OtherYahtzeesCountsBoxes | yatzee.py:133-137 | the bonus count equals the number of boxes other than the Yahtzee box that hold a Yahtzee |
| Scoring.OtherYahtzeesByPredicate | yatzee.py:133-137 | the bonus count equals the generic count of indices satisfying the same test |
| Scoring.CountBelowIsSize | yatzee.py:133-137 | counting indices one by one gives the size of the set of those indices |
| Scoring.YahtzeeBonusRule | yatzee.py:130-137 | entry 14 is 0 unless the Yahtzee box holds a Yahtzee; then 100 per other box holding one; always a multiple of 100 in 0..1200 |
| Scoring.TotalRule | yatzee.py:139 | entry 15 is the sum of entries 0-14: the box scores plus both bonuses |
| Scoring.TotalByEntries | yatzee.py:139 | summing sixteen entries whose last is still 0 gives the total of the first fifteen |
| Scoring.ScoreboardByEntries | yatzee.py:116-139 | entries holding each box score, the upper bonus and the Yahtzee bonus, with the total taken last, are the scoreboard |
| Scoring.BoxScoredAlone | yatzee.py:119-138 | each box score depends only on the throw recorded in that box |
| Scoring.ExampleCard | yatzee.py:16-24 | a 13-box card |
| Scoring.TwoExtraYahtzees | yatzee.py:130-137 | with 1-1-1-1-1 in Ones, Yahtzee and Chance, the multi-Yahtzee bonus is 200 |
| Scoring.FiveOnesScores | yatzee.py:120-138 | 1-1-1-1-1 scores 5 in Ones, 5 in Chance and 50 in Yahtzee |
| Scoring.SmallRunScores | yatzee.py:119-129 | 2-3-4-5-6 scores i+1 in the upper boxes Twos to Sixes, 0 for both kinds and Full House, 30 and 40 for the straights |
| Scoring.FullHouseExamples | yatzee.py:127 | 2-2-3-3-3 scores 25; 2-2-2-2-3 scores 0 |
| Scoring.StraightExamples | yatzee.py:82-92 | 1-2-3-4-4 and 2-3-4-5-5 are low straights but not high ones; 1-2-3-4-5 is both |
| Game.Rerolled | yatzee.py:101-103 | five dice; a hand when the old dice and the draws are faces |
| Game.RerollAll | yatzee.py:192 | selecting all five positions replaces the hand by the draws |
| Game.RerollNothing | yatzee.py:101-103 | a selection naming no position 1..5 leaves the hand unchanged |
| Game.RerollByPositions | yatzee.py:101-103 | only which positions 1..5 are selected matters, not order, repeats or other numbers |
| Game.RollsInRound | yatzee.py:193-206 | one to three rolls; three exactly when both selections are non-empty |
| Game.DiceAfter | yatzee.py:191-206 | five dice after n rolls of a round |
| Game.RoundForgetsOldDice | yatzee.py:191-206 | the first roll is the first draw; after it the dice are a hand that does not depend on the previous dice |
| Game.FirstFree | yatzee.py:210-223 | the chosen box is a choice in 1..13 whose box is blank, and every choice before it is not; none exactly when no choice is |
| Game.FilledCount | yatzee.py:16-24 | at most 13; 13 exactly when every box is filled, 0 exactly when none is |
| Game.CardAfter | yatzee.py:182-224 | thirteen boxes; it defines the card after n rounds (blank at first, then each round's final dice in the box `FirstFree` picks); `WriteOnce` and `Run` state what it means |
| Game.WriteOnce | yatzee.py:219-224 | a box filled after some round keeps the same throw after every later round |
| Game.FillOneBox | yatzee.py:224 | filling a blank box adds one to the number of filled boxes |
| Game.ScoreUpperSection | yatzee.py:119-120 | entries 0-5 become the upper box scores; the other entries are unchanged |
| Game.ScoreYahtzees | yatzee.py:130-137 | when the Yahtzee box holds a Yahtzee, entry 11 becomes 50 and entry 14 the multi-Yahtzee bonus; nothing else changes |
| Game.AddYahtzeeBonus | yatzee.py:133-137 | entry 14 grows by 100 per other box holding a Yahtzee |
| Game.Yahtzee.constructor | yatzee.py:16-35 | a blank card, dice 1-1-1-1-1 and 3 throws left |
| Game.Yahtzee.Roll | yatzee.py:100-103 | one throw fewer; the dice at the selected 1-based positions take the drawn values, the others keep theirs; the dice stay a hand |
| Game.Yahtzee.Record | yatzee.py:216-224 | rejects a number outside 1..13 and a filled box, changing nothing; otherwise stores a copy of the dice in that box only |
| Game.Yahtzee.GetScore | yatzee.py:105-140 | returns exactly the scoreboard of the current card |
| Game.Yahtzee.RollRound | yatzee.py:191-206 | the number of rolls and the final dice follow `RollsInRound` and `DiceAfter`; throws left is 3 minus the rolls |
| Game.Yahtzee.ChooseBox | yatzee.py:210-224 | records into the box `FirstFree` picks, changing no other box, or changes nothing |
| Game.Yahtzee.PlayRound | yatzee.py:189-224 | one round: the rolls as in `RollRound`, then the box choice as in `ChooseBox` |
| Game.Yahtzee.Run | yatzee.py:182-228 | starts from a blank card; the final card is `CardAfter` of the rounds played, so each box holds the dice of the round that chose it; each round fills exactly one more box; the game stops before 13 rounds only when that round's choices name no blank box; after 13 rounds every box is filled; returns the scoreboard total |

## Left out

- Printing of the score card and every message (`yatzee.py:142-173` and the print calls): output only.
- Reading the console (`yatzee.py:4-5`):
  - The digit scan that turns a reply into reroll positions (`yatzee.py:200-204`) is not modelled. The selections arrive already parsed, as lists of positions 1..5.
  - The `int(...)` conversion with its `ValueError` retry (`yatzee.py:211-215`) is not modelled. The choices arrive as integers.
- `random.randint`: the values drawn for each roll are supplied and must be faces 1..6.
- The `running` flag (`yatzee.py:9`, `185-186`, `229`): it never blocks a game.
- The `KeyboardInterrupt` handler (`yatzee.py:230-232`): an interrupt aborts the game with a partially filled card. The model has no interrupt, so every game it plays runs until its rounds or its box choices run out.
- The `__main__` entry point (`yatzee.py:234-236`).
- Game.Yahtzee.ChooseBox: the source asks again until an acceptable box number is typed, possibly forever. The model takes a finite list of choices and records nothing when none of them is acceptable.
- Game.Yahtzee.Run: because of the above, `Run` may stop before 13 rounds. Its contract states that the rounds played equal the boxes filled, and that an early stop happens only in a round whose choices name no blank box.
- Dice.DiceToCount: requires the dice to be faces 1..6. The source would index a wrong bucket for a 0 and fail for a 7, and no throw of the game holds either.
- Game.Yahtzee.Roll: throwsLeft is an unbounded integer. The source never lets it go below 0 within a round, and neither does `RollRound`.
