// Properties of the behaviour controller: what one tick guarantees, what a
// whole run of frames (mouse report, then tick) guarantees, and a few
// concrete situations worked through.

module CatProperties {
  import opened CatTypes
  import opened Behavior

  // ---------------------------------------------------------------------
  // Proximity

  /**
   * The squared-distance test agrees with the controller's own test on the
   * square root: the mouse is near exactly when its x is not negative and
   * the distance `d` is below the avoidance radius.
   */
  lemma {:induction false} NearbyMeansWithinRadius(c: Snapshot, mx: real, my: real, d: real)
    requires d >= 0.0 && d * d == (c.x - mx) * (c.x - mx) + (c.y - my) * (c.y - my)
    ensures WithMouse(c, mx, my).mouseNearby <==> d < c.mouseAvoidanceRadius && mx >= 0.0
  {
    var m := WithMouse(c, mx, my);
    var r := c.mouseAvoidanceRadius;
    assert MouseDistanceSquared(m) == d * d;
    if d < r {
      SquareMonotone(d, r);
    } else if 0.0 < r {
      SquareMonotone(r, d);
    }
  }

  /** Squaring is monotone on non-negative numbers. */
  lemma SquareMonotone(a: real, b: real)
    requires 0.0 <= a <= b
    ensures a * a <= b * b
    ensures a < b ==> a * a < b * b
  {
    ProductSign(a, b - a);
    ProductSign(b, b - a);
    assert a * (b - a) == a * b - a * a;
    assert b * (b - a) == b * b - a * b;
    if a < b {
      PositiveProduct(b, b - a);
      assert a * a <= a * b < b * b;
    }
  }

  lemma PositiveProduct(a: real, b: real)
    requires 0.0 < a && 0.0 < b
    ensures 0.0 < a * b
  {
  }

  // ---------------------------------------------------------------------
  // Examining

  /**
   * The examine duration is drawn from [min, max]: past `max` seconds the
   * cat always goes back to wandering, and within `min` seconds it never does.
   */
  lemma ExamineDurationBounds(c: Snapshot, now: int, d: TickDraws, dist: real)
    requires c.state == Examining && IsDraw(d.choice)
    requires c.examineDurationMin <= c.examineDurationMax
    ensures Elapsed(c, now) > c.examineDurationMax ==> Transition(c, now, d, dist).state == Wandering
    ensures Elapsed(c, now) <= c.examineDurationMin ==> Transition(c, now, d, dist).state != Wandering
  {
  }

  /**
   * A resting cat that keeps examining stays where it is: its velocity is
   * zero, so integration and the boundary check leave it in place.
   */
  lemma ExaminingCatStaysPut(c: Snapshot, seconds: real, now: int, d: TickDraws, dist: real)
    requires c.state == Examining && c.vx == 0.0 && c.vy == 0.0
    requires 0.0 <= c.x <= MaxX(c) && 0.0 <= c.y <= MaxY(c)
    requires Transition(c, now, d, dist).state == Examining
    ensures Step(c, seconds, now, d, dist).x == c.x
    ensures Step(c, seconds, now, d, dist).y == c.y
    ensures Step(c, seconds, now, d, dist).vx == 0.0 && Step(c, seconds, now, d, dist).vy == 0.0
  {
    var i := Integrate(c, seconds);
    assert i.x == c.x && i.y == c.y;
  }

  // ---------------------------------------------------------------------
  // Speed

  /**
   * The speed each state allows: none while examining, at most the base
   * speed while wandering, at most the retreat speed while retreating.
   * A bounce damps the velocity without restoring it, so the bounds are
   * upper bounds; entering a state reaches them exactly.
   */
  predicate SpeedInvariant(c: Snapshot)
  {
    (c.state == Examining ==> c.vx == 0.0 && c.vy == 0.0) &&
    (c.state == Wandering ==> SpeedSquared(c) <= c.baseSpeed * c.baseSpeed) &&
    (c.state == Retreating ==> SpeedSquared(c) <= RetreatSpeed(c) * RetreatSpeed(c))
  }

  /** Entering a state (or staying in one) keeps the speed invariant. */
  lemma TransitionKeepsSpeedInvariant(c: Snapshot, now: int, d: TickDraws, dist: real)
    requires SpeedInvariant(c) && ValidDraws(d) && IsMouseDistance(c, dist)
    ensures SpeedInvariant(Transition(c, now, d, dist))
  {
    var t := Transition(c, now, d, dist);
    if t != c {
      if t == EnterExamining(c, now, d.targetX, d.targetY) {
      } else if t == EnterWandering(c, now, d.heading) {
      } else {
        assert t == EnterRetreating(c, now, dist);
      }
    }
  }

  /** The boundary bounce never speeds the cat up, and leaves a resting cat at rest. */
  lemma BounceKeepsSpeedInvariant(c: Snapshot)
    requires SpeedInvariant(c)
    ensures SpeedInvariant(Bounce(c).cat)
  {
  }

  /** One tick keeps the speed invariant. */
  lemma StepKeepsSpeedInvariant(c: Snapshot, seconds: real, now: int, d: TickDraws, dist: real)
    requires SpeedInvariant(c) && ValidDraws(d) && IsMouseDistance(c, dist)
    ensures SpeedInvariant(Step(c, seconds, now, d, dist))
  {
    TransitionKeepsSpeedInvariant(c, now, d, dist);
    MotionKeepsSpeedInvariant(Transition(c, now, d, dist), seconds, d);
  }

  /** Integration, the bounce and a possible new heading keep the speed invariant. */
  lemma MotionKeepsSpeedInvariant(t: Snapshot, seconds: real, d: TickDraws)
    requires SpeedInvariant(t) && IsUnit(d.bounceHeading)
    ensures var m := Bounce(Integrate(t, seconds)); SpeedInvariant(Rehead(m.cat, m.bounced, d))
  {
    var i := Integrate(t, seconds);
    assert i == t.(x := i.x, y := i.y);
    var m := Bounce(i);
    BounceKeepsSpeedInvariant(i);
    ReheadKeepsSpeedInvariant(m.cat, m.bounced, d);
  }

  /** A new heading after a bounce moves the wandering cat at exactly its base speed. */
  lemma ReheadKeepsSpeedInvariant(c: Snapshot, bounced: bool, d: TickDraws)
    requires SpeedInvariant(c) && IsUnit(d.bounceHeading)
    ensures SpeedInvariant(Rehead(c, bounced, d))
  {
    if Rehead(c, bounced, d) != c {
      HeadingSpeed(d.bounceHeading, c.baseSpeed);
    }
  }

  /** A wandering cat that re-heads after a bounce moves at exactly its base speed again. */
  lemma ReheadSpeed(c: Snapshot, d: TickDraws)
    requires IsUnit(d.bounceHeading) && c.state == Wandering && d.bounce < ReheadChance
    ensures SpeedSquared(Rehead(c, true, d)) == c.baseSpeed * c.baseSpeed
  {
    HeadingSpeed(d.bounceHeading, c.baseSpeed);
  }

  // ---------------------------------------------------------------------
  // Runs of frames

  /**
   * One frame of the host: the mouse position it reports, then a tick of
   * `seconds` at wall-clock second `now`, with the draws of that tick and
   * the cat-to-mouse distance the tick computes.
   */
  datatype Frame = Frame(mouseX: real, mouseY: real, seconds: real, now: int, draws: TickDraws, dist: real)

  function FrameStep(c: Snapshot, f: Frame): Snapshot
  {
    Step(WithMouse(c, f.mouseX, f.mouseY), f.seconds, f.now, f.draws, f.dist)
  }

  /** The record after a sequence of frames. */
  function Run(c: Snapshot, frames: seq<Frame>): Snapshot
    decreases |frames|
  {
    if frames == [] then c else Run(FrameStep(c, frames[0]), frames[1..])
  }

  /** Every frame's draws are in range and its distance is the true one. */
  predicate ValidFrames(c: Snapshot, frames: seq<Frame>)
    decreases |frames|
  {
    frames != [] ==>
      ValidDraws(frames[0].draws) &&
      IsMouseDistance(WithMouse(c, frames[0].mouseX, frames[0].mouseY), frames[0].dist) &&
      ValidFrames(FrameStep(c, frames[0]), frames[1..])
  }

  predicate OnScreen(c: Snapshot)
  {
    0.0 <= c.x <= MaxX(c) && 0.0 <= c.y <= MaxY(c)
  }

  /** No frame changes the screen, the texture size or the configuration. */
  lemma {:induction false} RunKeepsSetup(c: Snapshot, frames: seq<Frame>)
    ensures SameSetup(c, Run(c, frames))
    decreases |frames|
  {
    if frames != [] {
      RunKeepsSetup(FrameStep(c, frames[0]), frames[1..]);
    }
  }

  /** A cat on a screen at least as large as its texture stays on it. */
  lemma {:induction false} RunStaysOnScreen(c: Snapshot, frames: seq<Frame>)
    requires OnScreen(c)
    ensures OnScreen(Run(c, frames))
    decreases |frames|
  {
    if frames != [] {
      RunStaysOnScreen(FrameStep(c, frames[0]), frames[1..]);
    }
  }

  /** Every run keeps the speed invariant. */
  lemma {:induction false} RunKeepsSpeedInvariant(c: Snapshot, frames: seq<Frame>)
    requires SpeedInvariant(c) && ValidFrames(c, frames)
    ensures SpeedInvariant(Run(c, frames))
    decreases |frames|
  {
    if frames != [] {
      var f := frames[0];
      StepKeepsSpeedInvariant(WithMouse(c, f.mouseX, f.mouseY), f.seconds, f.now, f.draws, f.dist);
      RunKeepsSpeedInvariant(FrameStep(c, f), frames[1..]);
    }
  }

  /**
   * With no valid mouse position in any frame (a negative x, such as the
   * (-1, -1) a failed pointer query reports) a cat that is not retreating
   * never starts to.
   */
  lemma {:induction false} RunWithoutMouseNeverRetreats(c: Snapshot, frames: seq<Frame>)
    requires c.state != Retreating
    requires forall i :: 0 <= i < |frames| ==> frames[i].mouseX < 0.0
    ensures Run(c, frames).state != Retreating
    decreases |frames|
  {
    if frames != [] {
      var f := frames[0];
      var m := WithMouse(c, f.mouseX, f.mouseY);
      assert !m.mouseNearby;
      assert FrameStep(c, f).state == Transition(m, f.now, f.draws, f.dist).state;
      RunWithoutMouseNeverRetreats(FrameStep(c, f), frames[1..]);
    }
  }

  /** The freshly initialised cat is on screen and satisfies the speed invariant. */
  lemma InitialIsSound(width: nat, height: nat, now: int, heading: Heading)
    requires IsUnit(heading)
    ensures OnScreen(Initial(width, height, now, heading))
    ensures SpeedInvariant(Initial(width, height, now, heading))
  {
  }

  /**
   * On an 800 x 600 screen with the pointer query failing every frame, the
   * cat stays on screen, keeps its speed bounds and only ever wanders or
   * examines.
   */
  lemma NoPointerScenario(now: int, heading: Heading, frames: seq<Frame>)
    requires IsUnit(heading)
    requires forall i :: 0 <= i < |frames| ==> frames[i].mouseX == -1.0 && frames[i].mouseY == -1.0
    requires ValidFrames(Initial(800, 600, now, heading), frames)
    ensures var r := Run(Initial(800, 600, now, heading), frames);
      r.state != Retreating && 0.0 <= r.x <= 800.0 && 0.0 <= r.y <= 600.0 && SpeedInvariant(r)
  {
    var c := Initial(800, 600, now, heading);
    InitialIsSound(800, 600, now, heading);
    RunWithoutMouseNeverRetreats(c, frames);
    RunStaysOnScreen(c, frames);
    RunKeepsSetup(c, frames);
    RunKeepsSpeedInvariant(c, frames);
  }

  // ---------------------------------------------------------------------
  // Concrete situations

  /** A cat at (100, 100) with the mouse at (150, 100) runs left at 90 pixels per second. */
  lemma RetreatFromMouseOnTheRight(c: Snapshot, now: int)
    requires c.x == 100.0 && c.y == 100.0 && c.mouseX == 150.0 && c.mouseY == 100.0
    requires c.baseSpeed == 30.0 && c.retreatSpeedMultiplier == 3.0
    ensures EnterRetreating(c, now, 50.0).vx == -90.0 && EnterRetreating(c, now, 50.0).vy == 0.0
  {
  }

  /** A cat within a pixel of the mouse falls back to running right at the retreat speed. */
  lemma RetreatFromMouseOnTop(c: Snapshot, now: int)
    requires c.x == c.mouseX && c.y == c.mouseY
    ensures EnterRetreating(c, now, 0.0).vx == RetreatSpeed(c) && EnterRetreating(c, now, 0.0).vy == 0.0
  {
  }

  /** Integrated to x = -5 with vx = -20, the cat is put back at 0 and moves right at 14. */
  lemma BounceOffLeftEdge(hi: real)
    ensures ClampAxis(-5.0, -20.0, hi) == Axis(0.0, 14.0, true)
  {
  }

  /**
   * A retreating cat that hits an edge keeps retreating with a damped
   * velocity: the retreat speed is an upper bound, not an invariant.
   */
  lemma RetreatingBounceLosesSpeed(c: Snapshot, d: TickDraws)
    requires c.state == Retreating && c.mouseNearby
    requires c.x == 0.0 && c.y == 10.0 && c.vx == -90.0 && c.vy == 0.0
    requires c.screenWidth == 100.0 && c.screenHeight == 100.0 && c.textureWidth == 0 && c.textureHeight == 0
    requires c.baseSpeed == 30.0 && c.retreatSpeedMultiplier == 3.0
    ensures var r := Step(c, 1.0, c.stateStartTime, d, 0.0);
      r.state == Retreating && r.vx == 63.0 && SpeedSquared(r) < RetreatSpeed(r) * RetreatSpeed(r)
  {
    var t := Transition(c, c.stateStartTime, d, 0.0);
    assert t == c;
    var i := Integrate(t, 1.0);
    assert i.x == -90.0 && i.y == 10.0;
  }
}
