/**
 * The falling balloons: their movement and the single pass that resolves
 * catches and drops balloons below the stage (js/catch.js `tick`),
 * stated as functions of the counters and the balloon list.
 */
module Balloons {
  import opened Optional
  import opened Tokens
  import opened Geometry
  import opened Scoring

  /** A falling balloon: its token, top-left corner and downward speed (px per second). */
  datatype Balloon = Balloon(token: string, x: real, y: real, vy: real)

  /** The balloon a spawn creates: just above the stage, falling at the round's speed. */
  function NewBalloon(token: string, x: real, fallSpeed: real): (b: Balloon)
    ensures b.token == token && b.x == x && b.vy == fallSpeed
    ensures b.y + BALLOON_H == 0.0
  {
    Balloon(token, x, -BALLOON_H, fallSpeed)
  }

  /** One balloon after `dt` milliseconds of constant-speed fall. */
  function Dropped(b: Balloon, dt: real): Balloon
  {
    b.(y := b.y + b.vy * dt / 1000.0)
  }

  /** Every balloon after `dt` milliseconds: same order, tokens and x; only y moves. */
  function Fall(bs: seq<Balloon>, dt: real): (r: seq<Balloon>)
    ensures |r| == |bs|
    ensures forall i :: 0 <= i < |bs| ==> r[i] == Dropped(bs[i], dt)
    ensures forall i :: 0 <= i < |bs| ==> r[i].token == bs[i].token && r[i].x == bs[i].x && r[i].vy == bs[i].vy
  {
    seq(|bs|, i requires 0 <= i < |bs| => Dropped(bs[i], dt))
  }

  lemma FallIsDownward(bs: seq<Balloon>, dt: real)
    requires dt >= 0.0
    requires forall i :: 0 <= i < |bs| ==> bs[i].vy >= 0.0
    ensures forall i :: 0 <= i < |bs| ==> Fall(bs, dt)[i].y >= bs[i].y
  {
  }

  /** A balloon that is neither caught nor more than the margin below a stage of height `h`. */
  predicate Survives(b: Balloon, px: real, h: real)
  {
    !Collides(px, h, b.x, b.y) && b.y <= h + OFFSCREEN_MARGIN
  }

  /**
   * A caught balloon with token `token`: it is correct when it matches the
   * token at `nextIndex` (past the end that token reads "undefined"). A
   * correct catch advances `nextIndex` and ends the round once the target
   * is used up; a wrong one is only penalised.
   */
  function Catch(p: Play, token: string, targets: seq<string>): (q: Play)
    ensures Matches(token, NeedAt(targets, p.nextIndex)) ==>
      q.nextIndex == p.nextIndex + 1 && q.correct == p.correct + 1 && q.combo == p.combo + 1
    ensures Matches(token, NeedAt(targets, p.nextIndex)) ==>
      q.score == Award(p, true).score
    ensures Matches(token, NeedAt(targets, p.nextIndex)) ==>
      (q.running <==> p.running && q.nextIndex < |targets|)
    ensures Matches(token, NeedAt(targets, p.nextIndex)) ==>
      q.high == (if q.nextIndex >= |targets| then MaxInt(p.high, q.score) else p.high)
    ensures Matches(token, NeedAt(targets, p.nextIndex)) ==>
      q.last == (if q.nextIndex >= |targets| then Some(LastRound(q.score, q.correct)) else p.last)
    ensures !Matches(token, NeedAt(targets, p.nextIndex)) ==>
      q == Award(p, false)
    ensures q.running ==> p.running
    ensures p.running && !q.running ==> q.nextIndex >= |targets| && q.high >= q.score
  {
    var ok := Matches(token, NeedAt(targets, p.nextIndex));
    var a := Award(p, ok);
    if !ok then a
    else
      var b := a.(nextIndex := a.nextIndex + 1);
      if b.nextIndex >= |targets| then Finish(b) else b
  }

  /**
   * The cleanup pass over the balloons in order, as `filter` runs it: a
   * colliding balloon is caught and removed, a balloon more than the margin
   * below the stage is removed silently, every other balloon is kept.
   * Returns the counters after the pass and the kept balloons.
   */
  function Sweep(p: Play, bs: seq<Balloon>, px: real, h: real, targets: seq<string>): (r: (Play, seq<Balloon>))
    ensures |r.1| <= |bs|
    decreases |bs|
  {
    if bs == [] then (p, [])
    else
      var b := bs[0];
      if Collides(px, h, b.x, b.y) then Sweep(Catch(p, b.token, targets), bs[1..], px, h, targets)
      else if b.y > h + OFFSCREEN_MARGIN then Sweep(p, bs[1..], px, h, targets)
      else
        var rest := Sweep(p, bs[1..], px, h, targets);
        (rest.0, [b] + rest.1)
  }

  /** One step of the pass, at position `i` of the list. */
  lemma SweepStep(p: Play, bs: seq<Balloon>, i: nat, px: real, h: real, targets: seq<string>)
    requires i < |bs|
    ensures Sweep(p, bs[i..], px, h, targets) ==
      if Collides(px, h, bs[i].x, bs[i].y) then Sweep(Catch(p, bs[i].token, targets), bs[i + 1..], px, h, targets)
      else if bs[i].y > h + OFFSCREEN_MARGIN then Sweep(p, bs[i + 1..], px, h, targets)
      else (Sweep(p, bs[i + 1..], px, h, targets).0, [bs[i]] + Sweep(p, bs[i + 1..], px, h, targets).1)
  {
  }

  /** Reference definition: the balloons that survive, in their original order. */
  function Survivors(bs: seq<Balloon>, px: real, h: real): seq<Balloon>
    decreases |bs|
  {
    if bs == [] then []
    else if Survives(bs[0], px, h) then [bs[0]] + Survivors(bs[1..], px, h)
    else Survivors(bs[1..], px, h)
  }

  /** The tokens of the colliding balloons, in order: the catches a pass resolves. */
  function Caught(bs: seq<Balloon>, px: real, h: real): seq<string>
    decreases |bs|
  {
    if bs == [] then []
    else if Collides(px, h, bs[0].x, bs[0].y) then [bs[0].token] + Caught(bs[1..], px, h)
    else Caught(bs[1..], px, h)
  }

  /** Catches resolved one after another. */
  function CatchAll(p: Play, tokens: seq<string>, targets: seq<string>): Play
    decreases |tokens|
  {
    if tokens == [] then p else CatchAll(Catch(p, tokens[0], targets), tokens[1..], targets)
  }

  /**
   * The pass keeps exactly the surviving balloons in order, and its effect
   * on the counters is that of the catches of the colliding balloons, one
   * per balloon, in order: off-screen balloons change nothing.
   */
  lemma {:induction false} SweepIsCatchesAndFilter(p: Play, bs: seq<Balloon>, px: real, h: real, targets: seq<string>)
    ensures Sweep(p, bs, px, h, targets).1 == Survivors(bs, px, h)
    ensures Sweep(p, bs, px, h, targets).0 == CatchAll(p, Caught(bs, px, h), targets)
    decreases |bs|
  {
    if bs != [] {
      var b := bs[0];
      if Collides(px, h, b.x, b.y) {
        SweepIsCatchesAndFilter(Catch(p, b.token, targets), bs[1..], px, h, targets);
        var c := Caught(bs, px, h);
        assert c[0] == b.token && c[1..] == Caught(bs[1..], px, h);
      } else {
        SweepIsCatchesAndFilter(p, bs[1..], px, h, targets);
      }
    }
  }

  /** Survivors are exactly the balloons that neither collide nor fell past the margin. */
  lemma {:induction false} SurvivorsMembership(bs: seq<Balloon>, px: real, h: real)
    ensures forall b :: b in Survivors(bs, px, h) <==> b in bs && Survives(b, px, h)
    decreases |bs|
  {
    if bs != [] {
      SurvivorsMembership(bs[1..], px, h);
      assert forall b :: b in bs <==> b == bs[0] || b in bs[1..];
    }
  }

  /** Without a collision the pass leaves the counters untouched. */
  lemma {:induction false} NoCatchNoChange(p: Play, bs: seq<Balloon>, px: real, h: real, targets: seq<string>)
    requires forall i :: 0 <= i < |bs| ==> !Collides(px, h, bs[i].x, bs[i].y)
    ensures Sweep(p, bs, px, h, targets).0 == p
    decreases |bs|
  {
    if bs != [] {
      NoCatchNoChange(p, bs[1..], px, h, targets);
    }
  }

  /**
   * Progress only moves forward, and it moves together with the correct
   * count: each correct catch adds one to both. The score stays non-negative.
   */
  lemma {:induction false} CatchAllProgress(p: Play, tokens: seq<string>, targets: seq<string>)
    requires p.score >= 0
    ensures var q := CatchAll(p, tokens, targets);
      q.nextIndex >= p.nextIndex && q.nextIndex - p.nextIndex == q.correct - p.correct
      && q.nextIndex - p.nextIndex <= |tokens| && q.score >= 0
    decreases |tokens|
  {
    if tokens != [] {
      CatchAllProgress(Catch(p, tokens[0], targets), tokens[1..], targets);
    }
  }

  /** No token reads "undefined" in upper case, so none can match past the end of the target. */
  predicate NoUndefinedToken(tokens: seq<string>)
  {
    forall i :: 0 <= i < |tokens| ==> Upper(tokens[i]) != "UNDEFINED"
  }

  /** Progress never passes the end of the target unless a token reads "undefined". */
  lemma {:induction false} CatchAllIndexBound(p: Play, tokens: seq<string>, targets: seq<string>)
    requires p.nextIndex <= |targets|
    requires NoUndefinedToken(tokens)
    ensures CatchAll(p, tokens, targets).nextIndex <= |targets|
    decreases |tokens|
  {
    if tokens != [] {
      if p.nextIndex == |targets| {
        MatchesPastEnd(tokens[0]);
      }
      CatchAllIndexBound(Catch(p, tokens[0], targets), tokens[1..], targets);
    }
  }

  /**
   * The round state a pass keeps: it runs exactly while part of the target
   * is still missing, and once it has stopped the saved highscore is at
   * least the score (later penalties only lower the score).
   */
  predicate RoundInvariant(p: Play, targets: seq<string>)
  {
    (p.running <==> p.nextIndex < |targets|) && (!p.running ==> p.high >= p.score) && p.score >= 0
  }

  /** Every catch keeps the round invariant, and the saved highscore never goes down. */
  lemma {:induction false} CatchAllKeepsInvariant(p: Play, tokens: seq<string>, targets: seq<string>)
    requires RoundInvariant(p, targets)
    ensures RoundInvariant(CatchAll(p, tokens, targets), targets)
    ensures CatchAll(p, tokens, targets).high >= p.high
    decreases |tokens|
  {
    if tokens != [] {
      CatchAllKeepsInvariant(Catch(p, tokens[0], targets), tokens[1..], targets);
    }
  }

  /** A running round stops in a pass exactly when the pass uses up the target, and the saved highscore then covers the score. */
  lemma SweepFinishes(p: Play, bs: seq<Balloon>, px: real, h: real, targets: seq<string>)
    requires p.running && p.nextIndex < |targets| && p.score >= 0
    ensures var q := Sweep(p, bs, px, h, targets).0;
      (q.running <==> q.nextIndex < |targets|) && (!q.running ==> q.high >= q.score && q.high >= p.high)
  {
    SweepIsCatchesAndFilter(p, bs, px, h, targets);
    CatchAllKeepsInvariant(p, Caught(bs, px, h), targets);
  }

  /** In one pass progress only moves forward, together with the correct count, and the score stays non-negative. */
  lemma SweepProgress(p: Play, bs: seq<Balloon>, px: real, h: real, targets: seq<string>)
    requires p.score >= 0
    ensures var q := Sweep(p, bs, px, h, targets).0;
      q.nextIndex >= p.nextIndex && q.nextIndex - p.nextIndex == q.correct - p.correct && q.score >= 0
  {
    SweepIsCatchesAndFilter(p, bs, px, h, targets);
    CatchAllProgress(p, Caught(bs, px, h), targets);
  }

  /** The caught tokens are tokens of the balloons. */
  lemma {:induction false} CaughtFromBalloons(bs: seq<Balloon>, px: real, h: real)
    ensures forall t :: t in Caught(bs, px, h) ==> exists i :: 0 <= i < |bs| && bs[i].token == t
    decreases |bs|
  {
    if bs != [] {
      CaughtFromBalloons(bs[1..], px, h);
      forall t | t in Caught(bs[1..], px, h) ensures exists i :: 0 <= i < |bs| && bs[i].token == t {
        var i :| 0 <= i < |bs[1..]| && bs[1..][i].token == t;
        assert bs[i + 1].token == t;
      }
    }
  }

  /** Unless a balloon's token reads "undefined", a pass never moves progress past the end of the target. */
  lemma SweepIndexBound(p: Play, bs: seq<Balloon>, px: real, h: real, targets: seq<string>)
    requires p.nextIndex <= |targets|
    requires forall i :: 0 <= i < |bs| ==> Upper(bs[i].token) != "UNDEFINED"
    ensures Sweep(p, bs, px, h, targets).0.nextIndex <= |targets|
  {
    SweepIsCatchesAndFilter(p, bs, px, h, targets);
    CaughtFromBalloons(bs, px, h);
    var c := Caught(bs, px, h);
    forall i | 0 <= i < |c| ensures Upper(c[i]) != "UNDEFINED" {
      assert c[i] in c;
    }
    CatchAllIndexBound(p, c, targets);
  }

  /** Catching T, I, G, E, R in order from a fresh round spells the target: 50+60+70+80+90 points and the round ends. */
  lemma SpellTiger(p: Play)
    requires p.score == 0 && p.combo == 0 && p.correct == 0 && p.nextIndex == 0 && p.running
    ensures var q := CatchAll(p, ["T", "I", "G", "E", "R"], ["T", "I", "G", "E", "R"]);
      q.correct == 5 && q.score == 350 && q.nextIndex == 5 && !q.running && q.high == MaxInt(p.high, 350)
  {
  }

  /** T is right, X is wrong, and T again is wrong because I is now required: 50, 40, 30. */
  lemma WrongOrderIsWrong(p: Play)
    requires p.score == 0 && p.combo == 0 && p.correct == 0 && p.nextIndex == 0 && p.running
    ensures var q := CatchAll(p, ["T", "X", "T"], ["T", "I", "G", "E", "R"]);
      q.score == 30 && q.combo == 0 && q.correct == 1 && q.nextIndex == 1 && q.running
  {
  }

  /** Caught balloons finishing a one-token target: the score falls after the highscore was saved. */
  lemma PenaltyAfterFinish(p: Play)
    requires p.score == 0 && p.combo == 0 && p.correct == 0 && p.nextIndex == 0 && p.running && p.high == 0
    ensures var q := CatchAll(p, ["A", "B"], ["A"]);
      !q.running && q.score == 40 && q.high == 50 && q.last == Some(LastRound(50, 1))
  {
  }

  /** A token reading "undefined" caught after the end counts as correct and moves progress past the target. */
  lemma UndefinedTokenPastEnd(p: Play)
    requires p.score == 0 && p.combo == 0 && p.correct == 0 && p.nextIndex == 0 && p.running && p.high == 0
    ensures var q := CatchAll(p, ["A", "undefined"], ["A"]);
      q.nextIndex == 2 && q.correct == 2 && q.score == 110 && q.high == 110 && !q.running
  {
  }
}
