// The data of the cat behaviour controller: the three behaviour states, the
// record the controller mutates (as a value), and the stand-ins for the
// random numbers and trigonometry the controller draws from its environment.

module CatTypes {

  /** The three behaviour states; exactly one is active at a time. */
  datatype CatState = Wandering | Examining | Retreating

  /**
   * A heading drawn at random: the pair (cos a, sin a) for a random angle a.
   * The controller only ever uses it through `IsUnit` headings.
   */
  datatype Heading = Heading(ux: real, uy: real)

  predicate IsUnit(h: Heading)
  {
    h.ux * h.ux + h.uy * h.uy == 1.0
  }

  /** One value of rand() / RAND_MAX: a number in [0, 1]. */
  predicate IsDraw(u: real)
  {
    0.0 <= u <= 1.0
  }

  /**
   * The random values one tick may consume, one field per call site.
   *  - choice: the draw of the state-machine step (the 30% examine test
   *    while wandering, the examine duration while examining, the 70%
   *    wander test when a retreat ends);
   *  - targetX, targetY: the two draws of the examine target;
   *  - heading: the new heading when wandering starts;
   *  - bounce, bounceHeading: the 40% test and the new heading after a bounce.
   * A field is consulted only where the controller would call rand().
   */
  datatype TickDraws = TickDraws(
    choice: real,
    targetX: real,
    targetY: real,
    heading: Heading,
    bounce: real,
    bounceHeading: Heading)

  predicate ValidDraws(d: TickDraws)
  {
    IsDraw(d.choice) && IsDraw(d.targetX) && IsDraw(d.targetY) && IsDraw(d.bounce) &&
    IsUnit(d.heading) && IsUnit(d.bounceHeading)
  }

  /**
   * The value of the controller's record: position, velocity, screen size,
   * behaviour state with the second it was entered, the examine target, the
   * configuration, the last mouse position with its proximity flag, and the
   * size of the bound texture (zero when none is bound).
   */
  datatype Snapshot = Snapshot(
    x: real, y: real,
    vx: real, vy: real,
    screenWidth: real, screenHeight: real,
    state: CatState,
    stateStartTime: int,
    targetX: real, targetY: real,
    baseSpeed: real,
    retreatSpeedMultiplier: real,
    mouseAvoidanceRadius: real,
    examineDurationMin: real,
    examineDurationMax: real,
    wanderChangeInterval: real,
    mouseX: real, mouseY: real,
    mouseNearby: bool,
    textureWidth: nat, textureHeight: nat)

  /** Squared distance from the cat to the last mouse position. */
  function MouseDistanceSquared(c: Snapshot): real
  {
    (c.x - c.mouseX) * (c.x - c.mouseX) + (c.y - c.mouseY) * (c.y - c.mouseY)
  }

  /** `d` is the Euclidean distance from the cat to the mouse (what sqrtf yields). */
  predicate IsMouseDistance(c: Snapshot, d: real)
  {
    d >= 0.0 && d * d == MouseDistanceSquared(c)
  }

  /** Squared speed. */
  function SpeedSquared(c: Snapshot): real
  {
    c.vx * c.vx + c.vy * c.vy
  }

  /** Right edge (resp. bottom edge) of the region the cat's corner may occupy. */
  function MaxX(c: Snapshot): real
  {
    c.screenWidth - c.textureWidth as real
  }

  function MaxY(c: Snapshot): real
  {
    c.screenHeight - c.textureHeight as real
  }

  /** The configuration and geometry no step of the controller changes. */
  predicate SameSetup(a: Snapshot, b: Snapshot)
  {
    a.screenWidth == b.screenWidth && a.screenHeight == b.screenHeight &&
    a.textureWidth == b.textureWidth && a.textureHeight == b.textureHeight &&
    a.baseSpeed == b.baseSpeed && a.retreatSpeedMultiplier == b.retreatSpeedMultiplier &&
    a.mouseAvoidanceRadius == b.mouseAvoidanceRadius &&
    a.examineDurationMin == b.examineDurationMin && a.examineDurationMax == b.examineDurationMax &&
    a.wanderChangeInterval == b.wanderChangeInterval
  }
}
