// The behaviour controller of cat-behavior.c. Each step of the controller is
// specified as a function on `Snapshot` values; class `CatBehavior` is the
// record the C code mutates through a pointer, and each of its methods is
// proved to change the record exactly as the matching function says.

module Behavior {
  import opened CatTypes

  // Constants of the controller.
  const DefaultBaseSpeed: real := 30.0
  const DefaultRetreatSpeedMultiplier: real := 3.0
  const DefaultMouseAvoidanceRadius: real := 150.0
  const DefaultExamineDurationMin: real := 1.5
  const DefaultExamineDurationMax: real := 4.0
  const DefaultWanderChangeInterval: real := 3.0
  const BounceDamping: real := 0.7
  const ExamineChance: real := 0.3
  const WanderAfterRetreatChance: real := 0.7
  const ReheadChance: real := 0.4

  /** Scale a draw `u` of [0, 1] onto the interval from `min` to `max`. */
  function RandF(min: real, max: real, u: real): (r: real)
    ensures IsDraw(u) && min <= max ==> min <= r <= max
    ensures IsDraw(u) && max <= min ==> max <= r <= min
    ensures min == 0.0 && max == 1.0 ==> r == u
  {
    var r := min + u * (max - min);
    ScaledDrawBounds(min, max, u, r);
    r
  }

  lemma ScaledDrawBounds(min: real, max: real, u: real, r: real)
    requires r == min + u * (max - min)
    ensures IsDraw(u) && min <= max ==> min <= r <= max
    ensures IsDraw(u) && max <= min ==> max <= r <= min
  {
    if IsDraw(u) {
      assert max - r == (1.0 - u) * (max - min);
      ProductSign(u, max - min);
      ProductSign(1.0 - u, max - min);
    }
  }

  lemma ProductSign(a: real, b: real)
    requires 0.0 <= a
    ensures 0.0 <= b ==> 0.0 <= a * b
    ensures b <= 0.0 ==> a * b <= 0.0
  {
  }

  /** The record right after initialisation on a screen of the given size. */
  function Initial(screenWidth: nat, screenHeight: nat, now: int, heading: Heading): (c: Snapshot)
    ensures c.x == screenWidth as real / 2.0 && c.y == screenHeight as real / 2.0
    ensures c.screenWidth == screenWidth as real && c.screenHeight == screenHeight as real
    ensures c.state == Wandering && c.stateStartTime == now
    ensures c.baseSpeed == 30.0 && c.retreatSpeedMultiplier == 3.0
    ensures c.mouseAvoidanceRadius == 150.0 && c.wanderChangeInterval == 3.0
    ensures c.examineDurationMin == 1.5 && c.examineDurationMax == 4.0
    ensures !c.mouseNearby && c.textureWidth == 0 && c.textureHeight == 0
    ensures IsUnit(heading) ==> SpeedSquared(c) == c.baseSpeed * c.baseSpeed
    ensures 0.0 <= c.x <= MaxX(c) && 0.0 <= c.y <= MaxY(c)
  {
    var w, h := screenWidth as real, screenHeight as real;
    var c := Snapshot(
      x := w * 0.5, y := h * 0.5,
      vx := heading.ux * DefaultBaseSpeed, vy := heading.uy * DefaultBaseSpeed,
      screenWidth := w, screenHeight := h,
      state := Wandering, stateStartTime := now,
      targetX := 0.0, targetY := 0.0,
      baseSpeed := DefaultBaseSpeed,
      retreatSpeedMultiplier := DefaultRetreatSpeedMultiplier,
      mouseAvoidanceRadius := DefaultMouseAvoidanceRadius,
      examineDurationMin := DefaultExamineDurationMin,
      examineDurationMax := DefaultExamineDurationMax,
      wanderChangeInterval := DefaultWanderChangeInterval,
      mouseX := 0.0, mouseY := 0.0, mouseNearby := false,
      textureWidth := 0, textureHeight := 0);
    HeadingSpeed(heading, DefaultBaseSpeed);
    c
  }

  /** Velocity `s` times a unit heading has squared magnitude `s * s`. */
  lemma HeadingSpeed(h: Heading, s: real)
    ensures IsUnit(h) ==> (h.ux * s) * (h.ux * s) + (h.uy * s) * (h.uy * s) == s * s
  {
    assert (h.ux * s) * (h.ux * s) + (h.uy * s) * (h.uy * s) == (h.ux * h.ux + h.uy * h.uy) * (s * s);
  }

  /**
   * The proximity test on squared distances: the mouse position is valid
   * (its x is not negative) and strictly inside the avoidance radius.
   */
  predicate MouseInRange(c: Snapshot)
  {
    0.0 < c.mouseAvoidanceRadius &&
    MouseDistanceSquared(c) < c.mouseAvoidanceRadius * c.mouseAvoidanceRadius &&
    c.mouseX >= 0.0
  }

  /** The record after the mouse is reported at (mx, my). */
  function WithMouse(c: Snapshot, mx: real, my: real): (r: Snapshot)
    ensures r == c.(mouseX := mx, mouseY := my, mouseNearby := r.mouseNearby)
    ensures mx < 0.0 ==> !r.mouseNearby
  {
    var m := c.(mouseX := mx, mouseY := my);
    m.(mouseNearby := MouseInRange(m))
  }

  /** Entry action of Examining: stop, and pick a target from draws `u` and `v`. */
  function EnterExamining(c: Snapshot, now: int, u: real, v: real): (r: Snapshot)
    ensures r == c.(state := Examining, stateStartTime := now, vx := 0.0, vy := 0.0,
                    targetX := r.targetX, targetY := r.targetY)
    ensures IsDraw(u) && 0.0 <= c.screenWidth ==> 0.0 <= r.targetX <= c.screenWidth
    ensures IsDraw(v) && 0.0 <= c.screenHeight ==> 0.0 <= r.targetY <= c.screenHeight
  {
    c.(state := Examining, stateStartTime := now,
       targetX := RandF(0.0, c.screenWidth, u),
       targetY := RandF(0.0, c.screenHeight, v),
       vx := 0.0, vy := 0.0)
  }

  /** Entry action of Wandering: base speed along the drawn heading. */
  function EnterWandering(c: Snapshot, now: int, h: Heading): (r: Snapshot)
    ensures r == c.(state := Wandering, stateStartTime := now, vx := r.vx, vy := r.vy)
    ensures r.vx == h.ux * c.baseSpeed && r.vy == h.uy * c.baseSpeed
    ensures IsUnit(h) ==> SpeedSquared(r) == c.baseSpeed * c.baseSpeed
  {
    HeadingSpeed(h, c.baseSpeed);
    c.(state := Wandering, stateStartTime := now,
       vx := h.ux * c.baseSpeed, vy := h.uy * c.baseSpeed)
  }

  /** The speed of a retreat. */
  function RetreatSpeed(c: Snapshot): real
  {
    c.baseSpeed * c.retreatSpeedMultiplier
  }

  /**
   * Entry action of Retreating: run straight away from the mouse at the
   * retreat speed, or along +x when the mouse is within one pixel.
   * `dist` stands for the square root the controller computes.
   */
  function EnterRetreating(c: Snapshot, now: int, dist: real): (r: Snapshot)
    ensures r == c.(state := Retreating, stateStartTime := now, vx := r.vx, vy := r.vy)
    ensures IsMouseDistance(c, dist) ==> SpeedSquared(r) == RetreatSpeed(c) * RetreatSpeed(c)
    ensures IsMouseDistance(c, dist) && MouseDistanceSquared(c) > 1.0 ==>
              r.vx * (c.y - c.mouseY) == r.vy * (c.x - c.mouseX) &&
              r.vx * (c.x - c.mouseX) + r.vy * (c.y - c.mouseY) == RetreatSpeed(c) * dist
    ensures IsMouseDistance(c, dist) && MouseDistanceSquared(c) <= 1.0 ==>
              r.vx == RetreatSpeed(c) && r.vy == 0.0
  {
    var dx, dy := c.x - c.mouseX, c.y - c.mouseY;
    var speed := RetreatSpeed(c);
    if dist > 1.0 then
      var r := c.(state := Retreating, stateStartTime := now, vx := (dx / dist) * speed, vy := (dy / dist) * speed);
      if IsMouseDistance(c, dist) then RetreatVelocity(dx, dy, dist, speed, r.vx, r.vy); r else r
    else
      DistanceAtMostOne(c, dist);
      c.(state := Retreating, stateStartTime := now, vx := speed, vy := 0.0)
  }

  lemma DistanceAtMostOne(c: Snapshot, dist: real)
    requires dist <= 1.0
    ensures IsMouseDistance(c, dist) ==> MouseDistanceSquared(c) <= 1.0
  {
    if IsMouseDistance(c, dist) {
      assert dist * dist <= dist * 1.0;
    }
  }

  /**
   * Normalising (dx, dy) by its length `dist` and scaling by `s` gives a
   * velocity of length |s|, parallel to (dx, dy), whose projection on
   * (dx, dy) is s * dist.
   */
  lemma RetreatVelocity(dx: real, dy: real, dist: real, s: real, vx: real, vy: real)
    requires dist > 1.0 && dist * dist == dx * dx + dy * dy
    requires vx == (dx / dist) * s && vy == (dy / dist) * s
    ensures vx * vx + vy * vy == s * s
    ensures vx * dy == vy * dx
    ensures vx * dx + vy * dy == s * dist
    ensures dx * dx + dy * dy > 1.0
  {
    var k := s / dist;
    assert vx == dx * k && vy == dy * k;
    assert k * dist == s;
    assert dist * dist > 1.0 by {
      assert dist * dist > dist * 1.0;
    }
    calc {
      vx * vx + vy * vy;
      (dx * k) * (dx * k) + (dy * k) * (dy * k);
      (dx * dx + dy * dy) * (k * k);
      (dist * dist) * (k * k);
      (k * dist) * (k * dist);
      s * s;
    }
    calc {
      vx * dx + vy * dy;
      (dx * k) * dx + (dy * k) * dy;
      (dx * dx + dy * dy) * k;
      (dist * dist) * k;
      (k * dist) * dist;
      s * dist;
    }
  }

  /** Whole seconds spent in the current state, as the controller measures them. */
  function Elapsed(c: Snapshot, now: int): real
  {
    (now - c.stateStartTime) as real
  }

  /**
   * The state-machine part of a tick: at most one transition, with its
   * entry action. `dist` stands for the cat-to-mouse distance.
   */
  function Transition(c: Snapshot, now: int, d: TickDraws, dist: real): (r: Snapshot)
    ensures r == c ||
            r == EnterExamining(c, now, d.targetX, d.targetY) ||
            r == EnterWandering(c, now, d.heading) ||
            r == EnterRetreating(c, now, dist)
    ensures r.state == c.state ==> r == c
    ensures c.state == Wandering ==>
              (r.state == Examining <==> Elapsed(c, now) > c.wanderChangeInterval && d.choice < ExamineChance) &&
              (r.state == Retreating <==>
                 !(Elapsed(c, now) > c.wanderChangeInterval && d.choice < ExamineChance) && c.mouseNearby)
    ensures c.state == Examining ==>
              (r.state == Wandering <==>
                 Elapsed(c, now) > RandF(c.examineDurationMin, c.examineDurationMax, d.choice)) &&
              (r.state == Retreating <==>
                 !(Elapsed(c, now) > RandF(c.examineDurationMin, c.examineDurationMax, d.choice)) && c.mouseNearby)
    ensures c.state == Retreating ==>
              (r.state == Retreating <==> c.mouseNearby) &&
              (r.state == Wandering <==> !c.mouseNearby && d.choice < WanderAfterRetreatChance)
  {
    var elapsed := Elapsed(c, now);
    match c.state
    case Wandering =>
      if elapsed > c.wanderChangeInterval && RandF(0.0, 1.0, d.choice) < ExamineChance then
        EnterExamining(c, now, d.targetX, d.targetY)
      else if c.mouseNearby then
        EnterRetreating(c, now, dist)
      else
        c
    case Examining =>
      if elapsed > RandF(c.examineDurationMin, c.examineDurationMax, d.choice) then
        EnterWandering(c, now, d.heading)
      else if c.mouseNearby then
        EnterRetreating(c, now, dist)
      else
        c
    case Retreating =>
      if !c.mouseNearby then
        if RandF(0.0, 1.0, d.choice) < WanderAfterRetreatChance then
          EnterWandering(c, now, d.heading)
        else
          EnterExamining(c, now, d.targetX, d.targetY)
      else
        c
  }

  /** One axis after integration: its position, velocity and whether it bounced. */
  datatype Axis = Axis(pos: real, vel: real, bounced: bool)

  /** Clamp one axis to [0, hi], reversing and damping the velocity on a bounce. */
  function ClampAxis(p: real, v: real, hi: real): (a: Axis)
    ensures a.bounced <==> p < 0.0 || p > hi
    ensures !a.bounced ==> a.pos == p && a.vel == v
    ensures a.bounced ==> a.vel == -v * BounceDamping
    ensures p < 0.0 ==> a.pos == 0.0
    ensures 0.0 <= p && hi < p ==> a.pos == hi
    ensures 0.0 <= hi ==> 0.0 <= a.pos <= hi
    ensures a.vel * a.vel <= v * v
  {
    if p < 0.0 then
      Axis(0.0, -v * BounceDamping, true)
    else if p > hi then
      Axis(hi, -v * BounceDamping, true)
    else
      Axis(p, v, false)
  }

  /** The record after `seconds` of motion at its current velocity. */
  function Integrate(c: Snapshot, seconds: real): Snapshot
  {
    c.(x := c.x + c.vx * seconds, y := c.y + c.vy * seconds)
  }

  /** The record after boundary resolution, and whether any axis bounced. */
  datatype Motion = Motion(cat: Snapshot, bounced: bool)

  function Bounce(c: Snapshot): (m: Motion)
    ensures m.cat == c.(x := m.cat.x, y := m.cat.y, vx := m.cat.vx, vy := m.cat.vy)
    ensures 0.0 <= MaxX(c) ==> 0.0 <= m.cat.x <= MaxX(c)
    ensures 0.0 <= MaxY(c) ==> 0.0 <= m.cat.y <= MaxY(c)
    ensures m.bounced <==> (c.x < 0.0 || c.x > MaxX(c) || c.y < 0.0 || c.y > MaxY(c))
    ensures 0.0 <= c.x <= MaxX(c) ==> m.cat.x == c.x && m.cat.vx == c.vx
    ensures 0.0 <= c.y <= MaxY(c) ==> m.cat.y == c.y && m.cat.vy == c.vy
    ensures m.cat.vx == c.vx || m.cat.vx == -c.vx * BounceDamping
    ensures m.cat.vy == c.vy || m.cat.vy == -c.vy * BounceDamping
    ensures SpeedSquared(m.cat) <= SpeedSquared(c)
  {
    var ax := ClampAxis(c.x, c.vx, MaxX(c));
    var ay := ClampAxis(c.y, c.vy, MaxY(c));
    Motion(c.(x := ax.pos, vx := ax.vel, y := ay.pos, vy := ay.vel), ax.bounced || ay.bounced)
  }

  /** After a bounce a wandering cat may pick a new heading at base speed. */
  function Rehead(c: Snapshot, bounced: bool, d: TickDraws): (r: Snapshot)
    ensures bounced && c.state == Wandering && d.bounce < ReheadChance ==>
              r == c.(vx := d.bounceHeading.ux * c.baseSpeed, vy := d.bounceHeading.uy * c.baseSpeed)
    ensures !(bounced && c.state == Wandering && d.bounce < ReheadChance) ==> r == c
  {
    if bounced && c.state == Wandering && RandF(0.0, 1.0, d.bounce) < ReheadChance then
      c.(vx := d.bounceHeading.ux * c.baseSpeed, vy := d.bounceHeading.uy * c.baseSpeed)
    else
      c
  }

  /**
   * One tick: the transition step, then integration over `seconds` and the
   * boundary bounce, then the optional new heading.
   */
  function Step(c: Snapshot, seconds: real, now: int, d: TickDraws, dist: real): (r: Snapshot)
    ensures SameSetup(c, r)
    ensures r.mouseX == c.mouseX && r.mouseY == c.mouseY && r.mouseNearby == c.mouseNearby
    ensures r.state == Transition(c, now, d, dist).state
    ensures 0.0 <= MaxX(c) ==> 0.0 <= r.x <= MaxX(c)
    ensures 0.0 <= MaxY(c) ==> 0.0 <= r.y <= MaxY(c)
  {
    var m := Bounce(Integrate(Transition(c, now, d, dist), seconds));
    Rehead(m.cat, m.bounced, d)
  }

  /** The controller's record, updated in place by its operations. */
  class CatBehavior {
    var x: real
    var y: real
    var vx: real
    var vy: real
    var screenWidth: real
    var screenHeight: real
    var state: CatState
    var stateStartTime: int
    var targetX: real
    var targetY: real
    var baseSpeed: real
    var retreatSpeedMultiplier: real
    var mouseAvoidanceRadius: real
    var examineDurationMin: real
    var examineDurationMax: real
    var wanderChangeInterval: real
    var mouseX: real
    var mouseY: real
    var mouseNearby: bool
    var textureWidth: nat
    var textureHeight: nat

    /** The record as a value. */
    function View(): Snapshot
      reads this
    {
      Snapshot(x, y, vx, vy, screenWidth, screenHeight, state, stateStartTime, targetX, targetY,
               baseSpeed, retreatSpeedMultiplier, mouseAvoidanceRadius,
               examineDurationMin, examineDurationMax, wanderChangeInterval,
               mouseX, mouseY, mouseNearby, textureWidth, textureHeight)
    }

    /** Set up a cat in the middle of the screen, wandering along `heading`, at time `now`. */
    constructor Init(width: nat, height: nat, now: int, heading: Heading)
      ensures View() == Initial(width, height, now, heading)
    {
      screenWidth := width as real;
      screenHeight := height as real;
      baseSpeed := DefaultBaseSpeed;
      retreatSpeedMultiplier := DefaultRetreatSpeedMultiplier;
      mouseAvoidanceRadius := DefaultMouseAvoidanceRadius;
      examineDurationMin := DefaultExamineDurationMin;
      examineDurationMax := DefaultExamineDurationMax;
      wanderChangeInterval := DefaultWanderChangeInterval;
      state := Wandering;
      stateStartTime := now;
      targetX, targetY := 0.0, 0.0;
      mouseX, mouseY, mouseNearby := 0.0, 0.0, false;
      textureWidth, textureHeight := 0, 0;
      new;
      x := screenWidth * 0.5;
      y := screenHeight * 0.5;
      vx := heading.ux * baseSpeed;
      vy := heading.uy * baseSpeed;
    }

    /** Record the mouse position and recompute whether it is near. */
    method SetMousePosition(mx: real, my: real)
      modifies this
      ensures View() == WithMouse(old(View()), mx, my)
    {
      mouseX := mx;
      mouseY := my;
      var dx := x - mouseX;
      var dy := y - mouseY;
      mouseNearby := 0.0 < mouseAvoidanceRadius &&
                     dx * dx + dy * dy < mouseAvoidanceRadius * mouseAvoidanceRadius &&
                     mouseX >= 0.0;
    }

    method StartExamining(now: int, u: real, v: real)
      modifies this
      ensures View() == EnterExamining(old(View()), now, u, v)
    {
      ghost var c := View();
      state := Examining;
      stateStartTime := now;
      targetX := RandF(0.0, screenWidth, u);
      targetY := RandF(0.0, screenHeight, v);
      vx, vy := 0.0, 0.0;
      assert targetX == RandF(0.0, c.screenWidth, u) && targetY == RandF(0.0, c.screenHeight, v);
    }

    method StartWandering(now: int, heading: Heading)
      modifies this
      ensures View() == EnterWandering(old(View()), now, heading)
    {
      state := Wandering;
      stateStartTime := now;
      vx := heading.ux * baseSpeed;
      vy := heading.uy * baseSpeed;
    }

    method StartRetreat(now: int, dist: real)
      requires IsMouseDistance(View(), dist)
      modifies this
      ensures View() == EnterRetreating(old(View()), now, dist)
    {
      state := Retreating;
      stateStartTime := now;
      var dx := x - mouseX;
      var dy := y - mouseY;
      if dist > 1.0 {
        var speed := baseSpeed * retreatSpeedMultiplier;
        vx := (dx / dist) * speed;
        vy := (dy / dist) * speed;
      } else {
        vx := baseSpeed * retreatSpeedMultiplier;
        vy := 0.0;
      }
    }

    /**
     * Advance the cat by `seconds` of motion at wall-clock second `now`,
     * using `draws` for rand() and `dist` for the cat-to-mouse distance.
     */
    method Tick(seconds: real, now: int, draws: TickDraws, dist: real)
      requires IsMouseDistance(View(), dist)
      modifies this
      ensures View() == Step(old(View()), seconds, now, draws, dist)
    {
      var elapsed := (now - stateStartTime) as real;
      match state {
        case Wandering =>
          if elapsed > wanderChangeInterval && RandF(0.0, 1.0, draws.choice) < ExamineChance {
            StartExamining(now, draws.targetX, draws.targetY);
          } else if mouseNearby {
            StartRetreat(now, dist);
          }
        case Examining =>
          var examineDuration := RandF(examineDurationMin, examineDurationMax, draws.choice);
          if elapsed > examineDuration {
            StartWandering(now, draws.heading);
          } else if mouseNearby {
            StartRetreat(now, dist);
          }
        case Retreating =>
          if !mouseNearby {
            if RandF(0.0, 1.0, draws.choice) < WanderAfterRetreatChance {
              StartWandering(now, draws.heading);
            } else {
              StartExamining(now, draws.targetX, draws.targetY);
            }
          }
      }
      ghost var afterTransition := View();
      assert afterTransition == Transition(old(View()), now, draws, dist);

      var bounced := IntegrateAndBounce(seconds);
      ReheadAfterBounce(bounced, draws);
    }

    /**
     * The motion part of a tick: move by `seconds` of the current velocity,
     * then clamp each axis to the screen with a damped bounce.
     */
    method IntegrateAndBounce(seconds: real) returns (bounced: bool)
      modifies this
      ensures Motion(View(), bounced) == Bounce(Integrate(old(View()), seconds))
    {
      ghost var c := View();
      x := x + vx * seconds;
      y := y + vy * seconds;
      ghost var moved := View();
      assert moved == Integrate(c, seconds);

      bounced := false;
      if x < 0.0 {
        x := 0.0;
        vx := -vx * BounceDamping;
        bounced := true;
      } else if x > screenWidth - textureWidth as real {
        x := screenWidth - textureWidth as real;
        vx := -vx * BounceDamping;
        bounced := true;
      }

      if y < 0.0 {
        y := 0.0;
        vy := -vy * BounceDamping;
        bounced := true;
      } else if y > screenHeight - textureHeight as real {
        y := screenHeight - textureHeight as real;
        vy := -vy * BounceDamping;
        bounced := true;
      }
      assert Motion(View(), bounced) == Bounce(moved);
    }

    /** After a bounce, a wandering cat may take a new heading at base speed. */
    method ReheadAfterBounce(bounced: bool, draws: TickDraws)
      modifies this
      ensures View() == Rehead(old(View()), bounced, draws)
    {
      if bounced && state == Wandering && RandF(0.0, 1.0, draws.bounce) < ReheadChance {
        vx := draws.bounceHeading.ux * baseSpeed;
        vy := draws.bounceHeading.uy * baseSpeed;
      }
    }

    /** The current position. */
    method GetPosition() returns (px: real, py: real)
      ensures px == x && py == y
    {
      px, py := x, y;
    }
  }
}
