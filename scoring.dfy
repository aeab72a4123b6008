/**
 * Scoring: the award and penalty rules, the end of a round and the
 * highscore rule (js/catch.js `award` and `finish`), stated on a value
 * that holds the round's counters.
 */
module Scoring {
  import opened Optional

  /** The "last result" record saved when a round ends (its elapsed time is not modelled). */
  datatype LastRound = LastRound(score: int, right: nat)

  /**
   * The counters of a round: score, combo streak, correct catches, the
   * index of the next required token, whether the round runs, the saved
   * highscore of the current selection and the last saved result.
   */
  datatype Play = Play(score: int, combo: nat, correct: nat, nextIndex: nat,
                       running: bool, high: int, last: Option<LastRound>)

  function MinInt(a: int, b: int): int { if a <= b then a else b }
  function MaxInt(a: int, b: int): int { if a >= b then a else b }

  /** Points for a correct catch that brings the combo to `combo`: base 50, +10 per streak step, capped at 100. */
  function Points(combo: int): (pts: int)
    ensures combo >= 1 ==> 50 <= pts <= 100
    ensures combo >= 6 ==> pts == 100
    ensures 1 <= combo <= 6 ==> pts == 40 + 10 * combo
  {
    50 + MinInt(50, 10 * (combo - 1))
  }

  /** One scoring event: a correct catch raises combo, correct count and score; a wrong one breaks the combo and costs 10, floored at 0. */
  function Award(p: Play, isCorrect: bool): (q: Play)
    ensures q.nextIndex == p.nextIndex && q.running == p.running && q.high == p.high && q.last == p.last
    ensures isCorrect ==> q.combo == p.combo + 1 && q.correct == p.correct + 1 && 50 <= q.score - p.score <= 100
    ensures isCorrect ==> q.score - p.score == Points(q.combo)
    ensures !isCorrect ==> q.combo == 0 && q.correct == p.correct
    ensures !isCorrect && p.score >= 10 ==> q.score == p.score - 10
    ensures !isCorrect && p.score < 10 ==> q.score == 0
    ensures p.score >= 0 ==> q.score >= 0
  {
    if isCorrect then
      var combo := p.combo + 1;
      p.(combo := combo, score := p.score + Points(combo), correct := p.correct + 1)
    else
      p.(combo := 0, score := MaxInt(0, p.score - 10))
  }

  /** The end of a round: it stops, the highscore becomes the larger of the saved one and the score, and the result is recorded. */
  function Finish(p: Play): (q: Play)
    ensures !q.running
    ensures q.high >= p.high && q.high >= p.score && (q.high == p.high || q.high == p.score)
    ensures q.last == Some(LastRound(p.score, p.correct))
    ensures q.score == p.score && q.combo == p.combo && q.correct == p.correct && q.nextIndex == p.nextIndex
  {
    p.(running := false, high := MaxInt(p.high, p.score), last := Some(LastRound(p.score, p.correct)))
  }

  /** A sequence of scoring events applied in order. */
  function AwardAll(p: Play, outcomes: seq<bool>): Play
    decreases |outcomes|
  {
    if outcomes == [] then p else AwardAll(Award(p, outcomes[0]), outcomes[1..])
  }

  /** Sum of the points of combo steps `from`+1 .. `from`+n. */
  function RunPoints(from: nat, n: nat): int
    decreases n
  {
    if n == 0 then 0 else Points(from + 1) + RunPoints(from + 1, n - 1)
  }

  function Repeat(b: bool, n: nat): (s: seq<bool>)
    ensures |s| == n && forall i :: 0 <= i < n ==> s[i] == b
  {
    if n == 0 then [] else [b] + Repeat(b, n - 1)
  }

  /** The score never goes negative, whatever the events. */
  lemma {:induction false} AwardAllScoreNonNegative(p: Play, outcomes: seq<bool>)
    requires p.score >= 0
    ensures AwardAll(p, outcomes).score >= 0
    decreases |outcomes|
  {
    if outcomes != [] {
      AwardAllScoreNonNegative(Award(p, outcomes[0]), outcomes[1..]);
    }
  }

  /** A run of n correct catches adds n to combo and correct count and the sum of the combo-step points to the score. */
  lemma {:induction false} CorrectRun(p: Play, n: nat)
    ensures AwardAll(p, Repeat(true, n)).combo == p.combo + n
    ensures AwardAll(p, Repeat(true, n)).correct == p.correct + n
    ensures AwardAll(p, Repeat(true, n)).score == p.score + RunPoints(p.combo, n)
    decreases n
  {
    if n > 0 {
      var outs := Repeat(true, n);
      assert outs[1..] == Repeat(true, n - 1);
      CorrectRun(Award(p, true), n - 1);
    }
  }

  /** Five correct catches in a row from a fresh round score 50+60+70+80+90. */
  lemma FiveInARow(p: Play)
    requires p.score == 0 && p.combo == 0 && p.correct == 0
    ensures AwardAll(p, Repeat(true, 5)).score == 350
    ensures AwardAll(p, Repeat(true, 5)).correct == 5
  {
  }

  /** Correct, wrong, wrong from a fresh round: 50, then 40, then 30, with the combo broken. */
  lemma CorrectThenTwoWrong(p: Play)
    requires p.score == 0 && p.combo == 0 && p.correct == 0
    ensures AwardAll(p, [true, false, false]).score == 30
    ensures AwardAll(p, [true, false, false]).combo == 0
    ensures AwardAll(p, [true, false, false]).correct == 1
  {
  }
}
