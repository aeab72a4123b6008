/**
 * The round controller: the game's module-level state as the fields of one
 * object, and the operations that change it step by step (js/catch.js
 * `start`, `award`, `tick`, `finish` and the input handlers). Each method is
 * specified by the functions of the Scoring, Balloons and Setup modules.
 */
module Game {
  import opened Optional
  import opened Tokens
  import opened Geometry
  import opened Scoring
  import opened Balloons
  import opened Setup

  /** The frame delta: the time since the last frame, capped at 40 ms. */
  function FrameDelta(lastTs: real, ts: real): (dt: real)
    ensures dt <= 40.0 && dt <= ts - lastTs
    ensures dt == 40.0 || dt == ts - lastTs
  {
    Min(40.0, ts - lastTs)
  }

  /** The balloon list after the spawn step: one new balloon exactly when the timer reaches the interval. */
  function Spawned(bs: seq<Balloon>, due: bool, token: string, x: real, fallSpeed: real): (r: seq<Balloon>)
    ensures due ==> r == bs + [NewBalloon(token, x, fallSpeed)]
    ensures !due ==> r == bs
  {
    if due then bs + [NewBalloon(token, x, fallSpeed)] else bs
  }

  predicate IsLeftKey(key: string) { key == "ArrowLeft" || key == "a" || key == "A" }
  predicate IsRightKey(key: string) { key == "ArrowRight" || key == "d" || key == "D" }

  class Round {
    var running: bool
    var balloons: seq<Balloon>
    var spawnPool: seq<string>
    var score: int
    var correct: nat
    var combo: nat
    var playerX: real
    var targetTokens: seq<string>
    var nextIndex: nat
    var spawnTimer: real
    var spawnInterval: real
    var fallSpeed: real
    var lastTs: real
    /** The stored highscore of the current selection, loaded by `Select` and written by `Finish`. */
    var savedHigh: int
    /** The stored result of the last finished round. */
    var lastResult: Option<LastRound>

    /** The score is never negative. */
    ghost predicate Valid()
      reads this
    {
      score >= 0
    }

    /** The counters as a value, for the specification functions. */
    function View(): Play
      reads this
    {
      Play(score, combo, correct, nextIndex, running, savedHigh, lastResult)
    }

    /** The state before any round: nothing runs, the defaults are in place; the records are those stored under the initial selection's keys. */
    constructor (storedHigh: int, storedLast: Option<LastRound>)
      ensures Valid() && !running && balloons == [] && spawnPool == [] && targetTokens == []
      ensures score == 0 && correct == 0 && combo == 0 && nextIndex == 0 && playerX == 0.0
      ensures spawnTimer == 0.0 && spawnInterval == DEFAULT_SPAWN_INTERVAL && fallSpeed == BASE_FALL_SPEED && lastTs == 0.0
      ensures savedHigh == storedHigh && lastResult == storedLast
    {
      running := false;
      balloons, spawnPool, targetTokens := [], [], [];
      score, correct, combo, nextIndex := 0, 0, 0, 0;
      playerX := 0.0;
      spawnTimer, spawnInterval, fallSpeed, lastTs := 0.0, DEFAULT_SPAWN_INTERVAL, BASE_FALL_SPEED, 0.0;
      savedHigh, lastResult := storedHigh, storedLast;
    }

    /**
     * A change of category, sub-category or mode: the records stored under
     * the new selection's keys become current, so that a later `Finish`
     * compares with, and overwrites, the records of the selection current then.
     */
    method Select(storedHigh: int, storedLast: Option<LastRound>)
      modifies this`savedHigh, this`lastResult
      ensures savedHigh == storedHigh && lastResult == storedLast
    {
      savedHigh, lastResult := storedHigh, storedLast;
    }

    /**
     * Start a round with the items of the current selection. The counters
     * and balloons are always reset. With no item, or an item with no
     * target tokens, the round does not start, and `running` keeps its old
     * value. Otherwise the player is centred and the round runs.
     */
    method Start(list: seq<Item>, selected: string, now: real, width: real) returns (started: bool)
      modifies this`targetTokens, this`fallSpeed, this`spawnInterval, this`balloons, this`score,
               this`correct, this`combo, this`nextIndex, this`spawnTimer, this`lastTs,
               this`spawnPool, this`playerX, this`running
      ensures Valid()
      ensures balloons == [] && score == 0 && correct == 0 && combo == 0 && nextIndex == 0
      ensures spawnTimer == 0.0 && lastTs == now
      ensures list == [] ==>
        targetTokens == old(targetTokens) && fallSpeed == old(fallSpeed) && spawnInterval == old(spawnInterval)
      ensures list != [] ==>
        var c := PickItem(list, selected).value;
        targetTokens == c.targets && fallSpeed == c.fallSpeed && spawnInterval == c.spawnInterval
      ensures started <==> list != [] && targetTokens != []
      ensures started ==> running && spawnPool == PickItem(list, selected).value.pool
      ensures started ==> playerX == (width - PLAYER_W) / 2.0
      ensures started ==> RoundInvariant(View(), targetTokens)
      ensures started && PLAYER_W <= width ==> 0.0 <= playerX <= width - PLAYER_W
      ensures !started ==> running == old(running) && spawnPool == old(spawnPool) && playerX == old(playerX)
    {
      var chosen := PickItem(list, selected);
      if chosen.Some? {
        ApplyConfig(chosen.value);
      }
      Reset(now);
      if chosen.None? || |targetTokens| == 0 {
        started := false;
        return;
      }
      Begin(chosen.value.pool, width);
      started := true;
    }

    /** Take the target tokens and the two rates of the chosen configuration. */
    method ApplyConfig(c: Config)
      modifies this`targetTokens, this`fallSpeed, this`spawnInterval
      ensures targetTokens == c.targets && fallSpeed == c.fallSpeed && spawnInterval == c.spawnInterval
    {
      targetTokens := c.targets;
      fallSpeed := c.fallSpeed;
      spawnInterval := c.spawnInterval;
    }

    /** Clear the balloons and counters and restart the clock at `now`. */
    method Reset(now: real)
      modifies this`balloons, this`score, this`correct, this`combo, this`nextIndex, this`spawnTimer, this`lastTs
      ensures Valid()
      ensures balloons == [] && score == 0 && correct == 0 && combo == 0 && nextIndex == 0
      ensures spawnTimer == 0.0 && lastTs == now
    {
      balloons := [];
      score, correct, combo, nextIndex := 0, 0, 0, 0;
      spawnTimer := 0.0;
      lastTs := now;
    }

    /** Cache the pool, centre the player on a stage of width `width` and run. */
    method Begin(pool: seq<string>, width: real)
      modifies this`spawnPool, this`playerX, this`running
      ensures spawnPool == pool && running
      ensures playerX == (width - PLAYER_W) / 2.0
      ensures PLAYER_W <= width ==> 0.0 <= playerX <= width - PLAYER_W
    {
      spawnPool := pool;
      playerX := (width - PLAYER_W) / 2.0;
      running := true;
    }

    /** Apply one scoring event to the counters. */
    method Award(isCorrect: bool)
      requires Valid()
      modifies this`score, this`combo, this`correct
      ensures Valid()
      ensures View() == Scoring.Award(old(View()), isCorrect)
    {
      if isCorrect {
        combo := combo + 1;
        score := score + Points(combo);
        correct := correct + 1;
      } else {
        combo := 0;
        score := MaxInt(0, score - 10);
      }
    }

    /** End the round: stop, keep the better highscore, record the result. */
    method Finish()
      modifies this`running, this`savedHigh, this`lastResult
      ensures View() == Scoring.Finish(old(View()))
    {
      running := false;
      savedHigh := MaxInt(savedHigh, score);
      lastResult := Some(LastRound(score, correct));
    }

    /** Resolve one caught balloon: score it and, when correct, advance and maybe finish. */
    method CatchBalloon(token: string)
      requires Valid()
      modifies this`score, this`combo, this`correct, this`nextIndex, this`running, this`savedHigh, this`lastResult
      ensures Valid()
      ensures View() == Catch(old(View()), token, targetTokens)
    {
      var isCorrect := Matches(token, NeedAt(targetTokens, nextIndex));
      Award(isCorrect);
      if isCorrect {
        nextIndex := nextIndex + 1;
        if nextIndex >= |targetTokens| {
          Finish();
        }
      }
    }

    /** Add a balloon just above the stage at `x`. */
    method SpawnBalloon(token: string, x: real)
      modifies this`balloons
      ensures balloons == old(balloons) + [NewBalloon(token, x, fallSpeed)]
    {
      balloons := balloons + [Balloon(token, x, -BALLOON_H, fallSpeed)];
    }

    /**
     * Advance the spawn timer by `dt`; when it reaches the spawn interval,
     * reset it and spawn one balloon with the chosen token.
     */
    method SpawnStep(dt: real, preferNeed: bool, pick: nat, spawnX: real)
      requires spawnPool == [] || pick < |spawnPool|
      modifies this`spawnTimer, this`balloons
      ensures spawnTimer == if old(spawnTimer) + dt >= spawnInterval then 0.0 else old(spawnTimer) + dt
      ensures balloons == Spawned(old(balloons), old(spawnTimer) + dt >= spawnInterval,
        ChooseToken(NeedAt(targetTokens, nextIndex), preferNeed, spawnPool, pick), spawnX, fallSpeed)
    {
      spawnTimer := spawnTimer + dt;
      if spawnTimer >= spawnInterval {
        spawnTimer := 0.0;
        var need := NeedAt(targetTokens, nextIndex);
        var token := ChooseToken(need, preferNeed, spawnPool, pick);
        SpawnBalloon(token, spawnX);
      }
    }

    /** Let every balloon fall for `dt` milliseconds, one after another. */
    method MoveBalloons(dt: real)
      modifies this`balloons
      ensures balloons == Fall(old(balloons), dt)
    {
      var i := 0;
      while i < |balloons|
        invariant 0 <= i <= |balloons| == |old(balloons)|
        invariant forall j :: 0 <= j < i ==> balloons[j] == Dropped(old(balloons)[j], dt)
        invariant forall j :: i <= j < |balloons| ==> balloons[j] == old(balloons)[j]
      {
        var b := balloons[i];
        balloons := balloons[i := b.(y := b.y + b.vy * dt / 1000.0)];
        i := i + 1;
      }
    }

    /**
     * The collision and cleanup pass: catch every colliding balloon, drop
     * every balloon below the margin, keep the rest. A round that finishes
     * part-way still scores the balloons later in the list.
     */
    method Cleanup(h: real)
      requires Valid()
      modifies this`balloons, this`score, this`combo, this`correct, this`nextIndex,
               this`running, this`savedHigh, this`lastResult
      ensures Valid()
      ensures (View(), balloons) == Sweep(old(View()), old(balloons), playerX, h, targetTokens)
    {
      var bs := balloons;
      ghost var goal := Sweep(View(), bs, playerX, h, targetTokens);
      var kept: seq<Balloon> := [];
      var i := 0;
      while i < |bs|
        invariant 0 <= i <= |bs|
        invariant Valid()
        invariant Sweep(View(), bs[i..], playerX, h, targetTokens).0 == goal.0
        invariant kept + Sweep(View(), bs[i..], playerX, h, targetTokens).1 == goal.1
      {
        var b := bs[i];
        ghost var p := View();
        ghost var next := Sweep(p, bs[i + 1..], playerX, h, targetTokens);
        SweepStep(p, bs, i, playerX, h, targetTokens);
        if Collides(playerX, h, b.x, b.y) {
          CatchBalloon(b.token);
          assert View() == Catch(p, b.token, targetTokens);
        } else if b.y > h + OFFSCREEN_MARGIN {
          assert Sweep(p, bs[i..], playerX, h, targetTokens) == next;
        } else {
          assert Sweep(p, bs[i..], playerX, h, targetTokens) == (next.0, [b] + next.1);
          kept := kept + [b];
        }
        i := i + 1;
      }
      assert bs[i..] == [];
      assert View() == goal.0 && kept == goal.1;
      balloons := kept;
      assert View() == goal.0;
    }

    /**
     * One animation frame at time `ts` on a stage of height `h`. The random
     * draws are parameters: `preferNeed` (whether the needed token is
     * favoured), `pick` (the pool index) and `spawnX` (the new balloon's x).
     * A stopped round is left unchanged.
     */
    method Tick(ts: real, h: real, preferNeed: bool, pick: nat, spawnX: real)
      requires Valid()
      requires spawnPool == [] || pick < |spawnPool|
      modifies this`running, this`balloons, this`score, this`combo, this`correct, this`nextIndex,
               this`spawnTimer, this`lastTs, this`savedHigh, this`lastResult
      ensures Valid()
      ensures !old(running) ==> unchanged(this)
      ensures old(running) ==>
        var dt := FrameDelta(old(lastTs), ts);
        var due := old(spawnTimer) + dt >= spawnInterval;
        var token := ChooseToken(NeedAt(targetTokens, old(nextIndex)), preferNeed, spawnPool, pick);
        var before := Spawned(old(balloons), due, token, spawnX, fallSpeed);
        && lastTs == ts
        && spawnTimer == (if due then 0.0 else old(spawnTimer) + dt)
        && (View(), balloons) == Sweep(old(View()), Fall(before, dt), playerX, h, targetTokens)
    {
      if running {
        Advance(ts, h, preferNeed, pick, spawnX);
      }
    }

    /** The work of one frame of a running round: clock, spawn, fall, cleanup. */
    method Advance(ts: real, h: real, preferNeed: bool, pick: nat, spawnX: real)
      requires Valid()
      requires spawnPool == [] || pick < |spawnPool|
      modifies this`running, this`balloons, this`score, this`combo, this`correct, this`nextIndex,
               this`spawnTimer, this`lastTs, this`savedHigh, this`lastResult
      ensures Valid()
      ensures lastTs == ts
      ensures var dt := FrameDelta(old(lastTs), ts);
        spawnTimer == if old(spawnTimer) + dt >= spawnInterval then 0.0 else old(spawnTimer) + dt
      ensures var dt := FrameDelta(old(lastTs), ts);
        var token := ChooseToken(NeedAt(targetTokens, old(nextIndex)), preferNeed, spawnPool, pick);
        var before := Spawned(old(balloons), old(spawnTimer) + dt >= spawnInterval, token, spawnX, fallSpeed);
        (View(), balloons) == Sweep(old(View()), Fall(before, dt), playerX, h, targetTokens)
    {
      ghost var p0, bs0, timer0 := View(), balloons, spawnTimer;
      ghost var token := ChooseToken(NeedAt(targetTokens, nextIndex), preferNeed, spawnPool, pick);
      var dt := FrameDelta(lastTs, ts);
      lastTs := ts;
      SpawnStep(dt, preferNeed, pick, spawnX);
      ghost var before := balloons;
      assert before == Spawned(bs0, timer0 + dt >= spawnInterval, token, spawnX, fallSpeed);
      MoveBalloons(dt);
      assert View() == p0 && balloons == Fall(before, dt);
      Cleanup(h);
    }

    /** A key press: arrows or A/D move the player by the keyboard step, only while the round runs. */
    method OnKey(key: string, width: real) returns (handled: bool)
      modifies this`playerX
      ensures handled <==> running && (IsLeftKey(key) || IsRightKey(key))
      ensures handled && IsLeftKey(key) ==> playerX == MoveLeft(old(playerX), KEY_MOVE_PX)
      ensures handled && !IsLeftKey(key) ==> playerX == MoveRight(old(playerX), KEY_MOVE_PX, width)
      ensures !handled ==> playerX == old(playerX)
    {
      handled := false;
      if !running {
        return;
      }
      if IsLeftKey(key) {
        playerX := MoveLeft(playerX, KEY_MOVE_PX);
        handled := true;
      } else if IsRightKey(key) {
        playerX := MoveRight(playerX, KEY_MOVE_PX, width);
        handled := true;
      }
    }

    /** The left button: a tap step to the left, whether or not the round runs. */
    method TapLeft()
      modifies this`playerX
      ensures playerX == MoveLeft(old(playerX), TAP_MOVE_PX)
    {
      playerX := MoveLeft(playerX, TAP_MOVE_PX);
    }

    /** The right button: a tap step to the right, whether or not the round runs. */
    method TapRight(width: real)
      modifies this`playerX
      ensures playerX == MoveRight(old(playerX), TAP_MOVE_PX, width)
    {
      playerX := MoveRight(playerX, TAP_MOVE_PX, width);
    }
  }
}
