/**
 * The fixed-timestep game loop (src/engine/GameLoop.ts). The clock (`performance.now`) becomes
 * the `now` argument of `Start` and `Tick`, the update and render callbacks become entries of a
 * call log, and the pending animation frame becomes the flag `scheduled`.
 */
module Loop {
  const FIXED_DT: real := 1.0 / 60.0
  const MAX_FRAME_TIME: real := 0.25

  /** One callback invocation made by the loop. */
  datatype Call = Update(dt: real) | Render

  /** `n` fixed-step updates in a row. */
  function Updates(n: nat): (s: seq<Call>)
    ensures |s| == n
    ensures forall i :: 0 <= i < n ==> s[i] == Update(FIXED_DT)
  {
    if n == 0 then [] else Updates(n - 1) + [Update(FIXED_DT)]
  }

  /** A frame never contributes more than `MAX_FRAME_TIME` of simulated time. */
  function ClampFrame(frameTime: real): (r: real)
    ensures r <= MAX_FRAME_TIME
    ensures r <= frameTime
    ensures frameTime <= MAX_FRAME_TIME ==> r == frameTime
  {
    if frameTime > MAX_FRAME_TIME then MAX_FRAME_TIME else frameTime
  }

  /** How many whole fixed steps fit into an accumulated duration. */
  function StepCount(acc: real): (n: nat)
    ensures acc - n as real * FIXED_DT < FIXED_DT
    ensures acc >= 0.0 ==> 0.0 <= acc - n as real * FIXED_DT
    ensures acc < FIXED_DT ==> n == 0
  {
    if acc < FIXED_DT then 0 else (acc * 60.0).Floor
  }

  /** A tick that starts with less than one step pending runs at most 15 updates:
      the clamp bounds the work done per frame. */
  lemma TickRunsAtMostFifteenUpdates(acc: real, frameTime: real)
    requires acc < FIXED_DT
    ensures StepCount(acc + ClampFrame(frameTime)) <= 15
  {
    var total := acc + ClampFrame(frameTime);
    assert total < 16.0 / 60.0;
    if total >= FIXED_DT {
      assert total * 60.0 < 16.0;
    }
  }

  class GameLoop {
    var accumulator: real
    var lastTime: real
    var running: bool
    var scheduled: bool
    var log: seq<Call>

    /** Between ticks less than one fixed step is pending. */
    predicate Valid()
      reads this
    {
      accumulator < FIXED_DT
    }

    constructor ()
      ensures Valid()
      ensures accumulator == 0.0 && lastTime == 0.0 && !running && !scheduled && log == []
    {
      accumulator, lastTime, running, scheduled, log := 0.0, 0.0, false, false, [];
    }

    /** One animation frame: advances the simulation by the elapsed time (clamped) in fixed
        steps, keeps the remainder for the next frame, renders once and schedules the next frame. */
    method Tick(now: real)
      requires Valid()
      modifies this
      ensures Valid()
      ensures !old(running) ==> (accumulator == old(accumulator) && lastTime == old(lastTime)
        && running == old(running) && scheduled == old(scheduled) && log == old(log))
      ensures old(running) ==>
        var total := old(accumulator) + ClampFrame(now - old(lastTime));
        var n := StepCount(total);
        && running && scheduled && lastTime == now
        && log == old(log) + Updates(n) + [Render]
        && accumulator == total - n as real * FIXED_DT
      ensures old(running) && 0.0 <= old(accumulator) && old(lastTime) <= now ==> 0.0 <= accumulator
    {
      if !running {
        return;
      }
      var frameTime := now - lastTime;
      lastTime := now;
      if frameTime > MAX_FRAME_TIME {
        frameTime := MAX_FRAME_TIME;
      }
      accumulator := accumulator + frameTime;
      ghost var total := accumulator;
      var k: nat := 0;
      while accumulator >= FIXED_DT
        invariant accumulator == total - k as real * FIXED_DT
        invariant k == 0 || accumulator >= 0.0
        invariant log == old(log) + Updates(k)
        invariant running && lastTime == now
        decreases (accumulator * 60.0).Floor
      {
        log := log + [Update(FIXED_DT)];
        accumulator := accumulator - FIXED_DT;
        k := k + 1;
      }
      assert k == StepCount(total);
      log := log + [Render];
      scheduled := true;
    }

    /** Starts the loop (no effect when it already runs): the clock is read once when starting
        and once more by the first tick. */
    method Start(startNow: real, tickNow: real)
      requires Valid()
      modifies this
      ensures Valid()
      ensures old(running) ==> (accumulator == old(accumulator) && lastTime == old(lastTime)
        && running && scheduled == old(scheduled) && log == old(log))
      ensures !old(running) ==>
        var n := StepCount(ClampFrame(tickNow - startNow));
        && running && scheduled && lastTime == tickNow
        && log == old(log) + Updates(n) + [Render]
        && accumulator == ClampFrame(tickNow - startNow) - n as real * FIXED_DT
    {
      if running {
        return;
      }
      running := true;
      lastTime := startNow;
      accumulator := 0.0;
      Tick(tickNow);
    }

    /** Stops the loop and cancels the pending frame; later ticks do nothing. */
    method Stop()
      modifies this
      ensures !running && !scheduled
      ensures accumulator == old(accumulator) && lastTime == old(lastTime) && log == old(log)
    {
      running := false;
      scheduled := false;
    }
  }

  /** A stopped loop ignores ticks: nothing is updated or rendered. */
  method StoppedLoopIsInert(startNow: real, later: real) returns (callsAfterStop: nat)
    ensures callsAfterStop == 0
  {
    var loop := new GameLoop();
    loop.Start(startNow, startNow);
    loop.Stop();
    var before := |loop.log|;
    loop.Tick(later);
    callsAfterStop := |loop.log| - before;
  }
}
