// The game loop: two subscriber lists without duplicates, a running flag, and
// the fixed-timestep catch-up that turns the time passed since the last pass
// into a whole number of update rounds, followed by the once-per-second
// counter reset and the render decision.

module Timing {
  import opened Lists

  /** A subscriber, identified by object identity. */
  type Handle = nat

  datatype Phase = Update | Draw

  /** One call the loop makes on a subscriber: Update(gameTime) or Draw(batch, gameTime). */
  datatype Call = Call(phase: Phase, target: Handle)

  datatype DrawMode = Limited | Unlimited

  /** The locals that the loop keeps from one pass to the next. */
  datatype Counters = Counters(updates: int, frames: int, frameCounter: real, unprocessedTime: real)

  /** The initial locals, before the first pass. */
  const Start: Counters := Counters(0, 0, 0.0, 0.0)

  /** One round over a subscriber list: each subscriber once, in list order. */
  function Round(phase: Phase, subscribers: seq<Handle>): (r: seq<Call>)
    ensures |r| == |subscribers|
    ensures forall i :: 0 <= i < |r| ==> r[i] == Call(phase, subscribers[i])
  {
    if subscribers == [] then []
    else [Call(phase, subscribers[0])] + Round(phase, subscribers[1..])
  }

  /** With a list free of duplicates, a round calls each subscriber exactly once. */
  lemma {:induction false} RoundCallsOnce(phase: Phase, subscribers: seq<Handle>, h: Handle)
    requires NoDuplicates(subscribers)
    ensures multiset(Round(phase, subscribers))[Call(phase, h)] == if h in subscribers then 1 else 0
  {
    if subscribers != [] {
      var rest := subscribers[1..];
      DistinctTail(subscribers);
      RoundCallsOnce(phase, rest, h);
      assert Round(phase, subscribers) == [Call(phase, subscribers[0])] + Round(phase, rest);
      assert subscribers == [subscribers[0]] + rest;
    }
  }

  /** n rounds, one after the other. */
  function Repeat(calls: seq<Call>, n: nat): seq<Call>
  {
    if n == 0 then [] else Repeat(calls, n - 1) + calls
  }

  lemma AppendAssociative(a: seq<Call>, b: seq<Call>, c: seq<Call>)
    ensures a + b + c == a + (b + c)
  {
  }

  /** Subtracting the divisor once lowers the quotient by exactly one. */
  lemma QuotientStep(u: real, f: real)
    requires f > 0.0 && u > f
    ensures (u - f) / f == u / f - 1.0
    ensures u / f > 1.0
  {
    var q := u / f;
    var d := (u - f) / f;
    assert q * f == u;
    assert d * f == u - f;
    assert (d - (q - 1.0)) * f == 0.0;
    var x := d - (q - 1.0);
    if x > 0.0 {
      assert false;
    } else if x < 0.0 {
      assert false;
    }
  }

  /** The catch-up: how many update rounds the loop runs for u units of
      unprocessed time at frameTime f, and what is left over. The rounds
      stop at the first point where the remainder is at most f; the
      remainder is u less the rounds' time, and it stays positive whenever
      at least one round ran. */
  function CatchUp(u: real, f: real): (r: (nat, real))
    requires f > 0.0
    ensures r.1 <= f
    ensures r.1 == u - r.0 as real * f
    ensures r.0 > 0 <==> u > f
    ensures r.0 > 0 ==> r.1 > 0.0
    decreases if u > f then (u / f).Floor else 0
  {
    if u > f then
      QuotientStep(u, f);
      var (n, rest) := CatchUp(u - f, f);
      (n + 1, rest)
    else (0, u)
  }

  /** The rounds are the fewest that bring the remainder down to frameTime:
      one round fewer would leave more than frameTime unprocessed. */
  lemma CatchUpFewest(u: real, f: real)
    requires f > 0.0
    ensures CatchUp(u, f).0 > 0 ==> u - (CatchUp(u, f).0 - 1) as real * f > f
  {
    var (n, rest) := CatchUp(u, f);
    if n > 0 {
      assert u - (n - 1) as real * f == rest + f;
    }
  }

  /** CatchUp is the only split of u into rounds and a remainder that the
      loop can reach: the remainder is u less n frame times, it is at most
      one frame time, and it is positive once a round has run. */
  lemma {:induction false} CatchUpCharacterised(u: real, f: real, n: nat, rest: real)
    requires f > 0.0
    requires rest == u - n as real * f && rest <= f && (n > 0 ==> rest > 0.0)
    ensures CatchUp(u, f) == (n, rest)
    decreases n
  {
    if n > 0 {
      assert u == rest + (n - 1) as real * f + f;
      assert (n - 1) as real * f >= 0.0 by {
        if (n - 1) as real * f < 0.0 {
          assert false;
        }
      }
      CatchUpCharacterised(u - f, f, n - 1, rest);
    }
  }

  /** The cast of a single to an int, which truncates toward zero. */
  function Truncate(x: real): (r: int)
    ensures 0.0 <= x ==> r as real <= x < r as real + 1.0
    ensures x < 0.0 ==> r as real - 1.0 < x <= r as real
  {
    if x >= 0.0 then x.Floor else -((-x).Floor)
  }

  class GameLoop {
    var drawables: seq<Handle>
    var updateables: seq<Handle>
    var isRunning: bool
    /** Whether the loop thread has been started. */
    var threadStarted: bool
    var targetTime: real
    var drawMode: DrawMode
    var measuredFps: int
    var measuredUps: int
    /** The game time handed to every subscriber, in milliseconds. */
    var elapsedGameTime: real
    var totalGameTime: int
    /** The calls made on subscribers, in order. */
    var log: seq<Call>

    ghost predicate Valid()
      reads this
    {
      NoDuplicates(drawables) && NoDuplicates(updateables)
    }

    constructor()
      ensures Valid()
      ensures drawables == [] && updateables == [] && !isRunning && !threadStarted
      ensures targetTime == 16.666 && drawMode == Limited
      ensures measuredFps == 0 && measuredUps == 0
      ensures elapsedGameTime == 0.0 && totalGameTime == 0 && log == []
    {
      drawables := [];
      updateables := [];
      isRunning := false;
      threadStarted := false;
      targetTime := 16.666;
      drawMode := Limited;
      measuredFps := 0;
      measuredUps := 0;
      elapsedGameTime := 0.0;
      totalGameTime := 0;
      log := [];
    }

    /** Appends a drawable that is not yet subscribed; a second subscription is ignored. */
    method SubscribeDrawable(d: Handle)
      requires Valid()
      modifies this`drawables
      ensures Valid()
      ensures drawables == if d in old(drawables) then old(drawables) else old(drawables) + [d]
      ensures updateables == old(updateables) && isRunning == old(isRunning) && log == old(log)
    {
      if d !in drawables {
        AppendDistinct(drawables, d);
        drawables := drawables + [d];
      }
    }

    /** Appends an updateable that is not yet subscribed; a second subscription is ignored. */
    method SubscribeUpdateable(u: Handle)
      requires Valid()
      modifies this`updateables
      ensures Valid()
      ensures updateables == if u in old(updateables) then old(updateables) else old(updateables) + [u]
      ensures drawables == old(drawables) && isRunning == old(isRunning) && log == old(log)
    {
      if u !in updateables {
        AppendDistinct(updateables, u);
        updateables := updateables + [u];
      }
    }

    /** Removes a subscribed drawable, keeping the others in order; an
        absent one leaves the list unchanged. */
    method UnsubscribeDrawable(d: Handle)
      requires Valid()
      modifies this`drawables
      ensures Valid()
      ensures drawables == RemoveFirst(old(drawables), d)
      ensures d !in drawables
      ensures forall h :: h in drawables <==> h in old(drawables) && h != d
      ensures d !in old(drawables) ==> drawables == old(drawables)
      ensures updateables == old(updateables) && isRunning == old(isRunning) && log == old(log)
    {
      RemoveFromDistinct(drawables, d);
      if d in drawables {
        drawables := RemoveFirst(drawables, d);
      } else {
        RemoveAbsent(drawables, d);
      }
    }

    /** Removes a subscribed updateable, keeping the others in order; an
        absent one leaves the list unchanged. */
    method UnsubscribeUpdateable(u: Handle)
      requires Valid()
      modifies this`updateables
      ensures Valid()
      ensures updateables == RemoveFirst(old(updateables), u)
      ensures u !in updateables
      ensures forall h :: h in updateables <==> h in old(updateables) && h != u
      ensures u !in old(updateables) ==> updateables == old(updateables)
      ensures drawables == old(drawables) && isRunning == old(isRunning) && log == old(log)
    {
      RemoveFromDistinct(updateables, u);
      if u in updateables {
        updateables := RemoveFirst(updateables, u);
      } else {
        RemoveAbsent(updateables, u);
      }
    }

    method Stop()
      modifies this`isRunning
      ensures !isRunning
      ensures drawables == old(drawables) && updateables == old(updateables) && log == old(log)
    {
      isRunning := false;
    }

    /** Sets the running flag only when it was clear, and starts the loop
        thread at that point. A thread can be started once only: a Start
        after a Stop sets the flag again and then fails
        (ThreadStateException), reported here as `ok == false`. */
    method Start() returns (ok: bool)
      modifies this`isRunning, this`threadStarted
      ensures isRunning
      ensures old(isRunning) ==> ok && threadStarted == old(threadStarted)
      ensures !old(isRunning) ==> threadStarted && ok == !old(threadStarted)
      ensures drawables == old(drawables) && updateables == old(updateables) && log == old(log)
    {
      ok := true;
      if !isRunning {
        isRunning := true;
        if threadStarted {
          ok := false;
        } else {
          threadStarted := true;
        }
      }
    }

    /** Calls Update on every updateable, once each, in list order. */
    method UpdateSubscribers()
      modifies this`log
      ensures log == old(log) + Round(Update, updateables)
    {
      var i := 0;
      while i < |updateables|
        invariant 0 <= i <= |updateables|
        invariant log == old(log) + Round(Update, updateables[..i])
      {
        assert Round(Update, updateables[..i + 1]) == Round(Update, updateables[..i]) + [Call(Update, updateables[i])];
        log := log + [Call(Update, updateables[i])];
        i := i + 1;
      }
      assert updateables[..i] == updateables;
    }

    /** Calls Draw on every drawable, once each, in list order. */
    method RenderSubscribers()
      modifies this`log
      ensures log == old(log) + Round(Draw, drawables)
    {
      var i := 0;
      while i < |drawables|
        invariant 0 <= i <= |drawables|
        invariant log == old(log) + Round(Draw, drawables[..i])
      {
        assert Round(Draw, drawables[..i + 1]) == Round(Draw, drawables[..i]) + [Call(Draw, drawables[i])];
        log := log + [Call(Draw, drawables[i])];
        i := i + 1;
      }
      assert drawables[..i] == drawables;
    }

    /** The time per update round: the stopwatch frequency divided by the
        number of rounds per millisecond. */
    function FrameTime(frequency: real): (r: real)
      reads this
      requires frequency > 0.0 && targetTime > 0.0
      ensures r > 0.0
      ensures r * 1000.0 == frequency * targetTime
    {
      frequency / (1000.0 / targetTime)
    }

    /** One round of the catch-up: the elapsed time becomes the time left
        before the round, in milliseconds; the total advances by the target
        step; every updateable is updated once. */
    method CatchUpRound(rest: real, frequency: real)
      requires frequency > 0.0
      modifies this`elapsedGameTime, this`totalGameTime, this`log
      ensures elapsedGameTime == rest / frequency * 1000.0
      ensures totalGameTime == old(totalGameTime) + Truncate(targetTime)
      ensures log == old(log) + Round(Update, updateables)
    {
      elapsedGameTime := rest / frequency * 1000.0;
      totalGameTime := totalGameTime + Truncate(targetTime);
      UpdateSubscribers();
    }

    /** The catch-up: while more than one frame time is unprocessed, stamp
        the game time, run one update round and consume one frame time.
        It runs `CatchUp`'s number of rounds and leaves its remainder. */
    method CatchUpRounds(unprocessed: real, frameTime: real, frequency: real) returns (rest: real, rounds: nat)
      requires frameTime > 0.0 && frequency > 0.0
      modifies this`elapsedGameTime, this`totalGameTime, this`log
      ensures (rounds, rest) == CatchUp(unprocessed, frameTime)
      ensures totalGameTime == old(totalGameTime) + rounds * Truncate(targetTime)
      ensures rounds > 0 ==> elapsedGameTime == (rest + frameTime) / frequency * 1000.0
      ensures rounds == 0 ==> elapsedGameTime == old(elapsedGameTime)
      ensures log == old(log) + Repeat(Round(Update, updateables), rounds)
    {
      rest, rounds := unprocessed, 0;
      ghost var round := Round(Update, updateables);
      while rest > frameTime
        invariant rest == unprocessed - rounds as real * frameTime
        invariant rounds > 0 ==> rest > 0.0
        invariant totalGameTime == old(totalGameTime) + rounds * Truncate(targetTime)
        invariant rounds > 0 ==> elapsedGameTime == (rest + frameTime) / frequency * 1000.0
        invariant rounds == 0 ==> elapsedGameTime == old(elapsedGameTime)
        invariant log == old(log) + Repeat(round, rounds)
        decreases (rest / frameTime).Floor
      {
        QuotientStep(rest, frameTime);
        ghost var logBefore := log;
        CatchUpRound(rest, frequency);
        rest := rest - frameTime;
        assert log == logBefore + round;
        AppendAssociative(old(log), Repeat(round, rounds), round);
        assert (rounds + 1) as real * frameTime == rounds as real * frameTime + frameTime;
        assert (rounds + 1) * Truncate(targetTime) == rounds * Truncate(targetTime) + Truncate(targetTime);
        rounds := rounds + 1;
      }
      CatchUpCharacterised(unprocessed, frameTime, rounds, rest);
    }

    /** One pass of the running loop, given the stopwatch ticks passed since
        the previous pass. The unprocessed time runs through the catch-up;
        once a second's worth of ticks has been counted, the frame and
        update counts become the measured rates and all three counters
        restart from zero; then a frame is drawn when the draw mode is
        unlimited or some update ran. */
    method Pass(c: Counters, passedTime: real, frequency: real) returns (next: Counters, requestRender: bool)
      requires frequency > 0.0 && targetTime > 0.0
      modifies this`measuredFps, this`measuredUps, this`elapsedGameTime, this`totalGameTime, this`log
      ensures var f := old(FrameTime(frequency));
              var (n, rest) := CatchUp(c.unprocessedTime + passedTime, f);
              && requestRender == (n > 0)
              && next.unprocessedTime == rest
              && totalGameTime == old(totalGameTime) + n * Truncate(targetTime)
              && (n > 0 ==> elapsedGameTime == (rest + f) / frequency * 1000.0)
              && (n == 0 ==> elapsedGameTime == old(elapsedGameTime))
              && var drawn := if drawMode == Unlimited || requestRender then 1 else 0;
              && (if c.frameCounter + passedTime >= frequency then
                    && next.frameCounter == 0.0
                    && measuredFps == c.frames && measuredUps == c.updates + n
                    && next.updates == 0 && next.frames == drawn
                  else
                    && next.frameCounter == c.frameCounter + passedTime
                    && measuredFps == old(measuredFps) && measuredUps == old(measuredUps)
                    && next.updates == c.updates + n && next.frames == c.frames + drawn)
              && log == old(log) + Repeat(Round(Update, updateables), n)
                        + (if drawn == 1 then Round(Draw, drawables) else [])
      ensures drawables == old(drawables) && updateables == old(updateables)
      ensures isRunning == old(isRunning) && targetTime == old(targetTime) && drawMode == old(drawMode)
    {
      var frameCounter := c.frameCounter + passedTime;
      var frameTime := FrameTime(frequency);
      var unprocessedTime, rounds := CatchUpRounds(c.unprocessedTime + passedTime, frameTime, frequency);
      var updates := c.updates + rounds;
      var frames := c.frames;
      requestRender := rounds > 0;

      if frameCounter >= frequency {
        frameCounter := 0.0;
        measuredFps := frames;
        measuredUps := updates;
        frames := 0;
        updates := 0;
      }

      if drawMode == Limited {
        if requestRender {
          frames := frames + 1;
          RenderSubscribers();
        }
      } else {
        frames := frames + 1;
        RenderSubscribers();
      }
      next := Counters(updates, frames, frameCounter, unprocessedTime);
    }
  }

  /** A fresh loop given one updateable, started, run for one pass, stopped
      and started again. The first start succeeds; the pass requests a frame
      exactly when more than one target step of ticks has passed; the
      second start finds the thread already started and fails. */
  method RestartAfterStop(h: Handle, passedTime: real, frequency: real)
    returns (first: bool, rendered: bool, second: bool)
    requires frequency > 0.0 && passedTime >= 0.0
    ensures first && !second
    ensures rendered <==> passedTime * 1000.0 > frequency * 16.666
  {
    var g := new GameLoop();
    g.SubscribeUpdateable(h);
    first := g.Start();
    var next;
    next, rendered := g.Pass(Start, passedTime, frequency);
    g.Stop();
    second := g.Start();
  }
}
