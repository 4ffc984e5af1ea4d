# Cat behaviour controller

This project models the behaviour controller of a small desktop-overlay plugin. The controller moves a cat sprite across a screen.

The controller keeps one mutable record, `cat_behavior_t`, which holds:

- position and velocity;
- screen size and texture size;
- the current behaviour state and the second it was entered;
- an examine target;
- six configuration values;
- the last mouse position and whether it is near.

The controller's operations are:

- **Initialisation**: puts the cat in the middle of the screen, wandering at the base speed along a random heading.
- **Mouse report**: stores the pointer position and recomputes the `mouse_nearby` flag.
- **Entry actions**: one for each of the three states, Wandering, Examining and Retreating.
- **Per-frame tick**: fires at most one state transition and integrates the position over the frame time. It then clamps each axis to the screen with a damped bounce. After a bounce, a wandering cat may pick a new heading.
- **Position query.**

The model has three files:

- `cat_types.dfy` (module `CatTypes`): the state enumeration, the record as a value (`Snapshot`), and the stand-ins for randomness and trigonometry. A `TickDraws` holds the values `rand()` would give in one tick. The three state-machine draws (cat-behavior.c:117, 131 and 148) share the field `choice`, because a tick makes at most one of them; the examine target, the new heading and the two post-bounce draws each have their own field. A `Heading` is a unit vector that stands for `(cos a, sin a)`.
- `cat_behavior.dfy` (module `Behavior`):
  - Each operation is a function on `Snapshot` values. That function is the specification.
  - Class `CatBehavior` has the record's fields. Its methods update the fields in place, as the C code does, and each method is proved to produce exactly the record its specification function gives (`View() == F(old(View()), …)`).
- `cat_properties.dfy` (module `CatProperties`) proves what the controller guarantees:
  - over a single tick, and over any run of frames (each frame is a mouse report followed by a tick), by induction on the run;
  - in a few concrete situations.

The environment is passed in as parameters:

- The wall-clock second from `time(NULL)` is an `int` argument (`now`).
- Each `rand() / RAND_MAX` draw is a real in [0, 1].
- Each random angle's `cosf`/`sinf` pair is a unit `Heading`.
- The square root of the cat-to-mouse distance is an argument `dist` with `dist >= 0` and `dist * dist` equal to the squared distance.

Coordinates and speeds are mathematical reals.

## Speed after a bounce

After a bounce, a retreating cat does not keep `base_speed * retreat_speed_multiplier`, and a wandering cat does not keep `base_speed`:

- A bounce multiplies the velocity on that axis by 0.7.
- Nothing restores the speed of a retreating cat until the state changes.
- A wandering cat gets its speed back only if the 40% re-heading fires, or when the state changes.

So the damped speed lasts for any number of ticks. `SpeedInvariant` states the speeds as upper bounds, which every entry action reaches exactly. `RetreatingBounceLosesSpeed` exhibits a retreating cat that ends a tick below the retreat speed.

## Model

| member | source | states |
|---|---|---|
| Behavior.RandF | cat-behavior.c:62-64 | A draw scaled onto [min, max] lies between the two bounds in either order; scaling onto [0, 1] returns the draw itself |
| Behavior.Initial | cat-behavior.c:24-49 | The initial record: centred on the screen, Wandering since `now`, default configuration (30, 3, 150, 1.5, 4.0, 3.0), no texture, mouse not near, speed exactly the base speed for a unit heading, on screen |
| Behavior.CatBehavior.Init | cat-behavior.c:24-49 | Initialisation leaves the record equal to `Initial` |
| Behavior.WithMouse | cat-behavior.c:51-60 | A mouse report changes only the mouse position and the proximity flag; a negative mouse x never counts as near |
| CatProperties.NearbyMeansWithinRadius | cat-behavior.c:55-59 | The proximity flag is set exactly when the Euclidean distance is below the avoidance radius and the mouse x is not negative (the y coordinate does not matter) |
| Behavior.CatBehavior.SetMousePosition | cat-behavior.c:51-60 | The mouse report updates the record as `WithMouse` says |
| Behavior.EnterExamining | cat-behavior.c:66-76 | Entering Examining changes only state, entry time, target and velocity; the velocity becomes (0, 0) and the target lies inside the screen for draws in [0, 1] |
| Behavior.CatBehavior.StartExamining | cat-behavior.c:66-76 | Updates the record as `EnterExamining` says |
| Behavior.EnterWandering | cat-behavior.c:78-86 | Entering Wandering changes only state, entry time and velocity; the velocity is the base speed along the drawn heading, of magnitude exactly the base speed |
| Behavior.CatBehavior.StartWandering | cat-behavior.c:78-86 | Updates the record as `EnterWandering` says |
| Behavior.EnterRetreating | cat-behavior.c:88-107 | Entering Retreating changes only state, entry time and velocity; the speed is exactly base × multiplier; beyond one pixel the velocity is parallel to the cat-minus-mouse vector and points away from the mouse (its projection on that vector is speed × distance); within one pixel it is (speed, 0) |
| Behavior.RetreatVelocity | cat-behavior.c:97-101 | Normalising (dx, dy) by its length and scaling by s gives length \|s\|, the same direction, and projection s × length |
| Behavior.CatBehavior.StartRetreat | cat-behavior.c:88-107 | Updates the record as `EnterRetreating` says, given the true distance |
| Behavior.Transition | cat-behavior.c:113-156 | At most one entry action fires per tick. Wandering goes to Examining exactly when more than the wander interval has elapsed and the draw is below 0.3, and otherwise to Retreating exactly when the mouse is near. Examining goes to Wandering exactly when the elapsed time exceeds a duration freshly drawn from [min, max], and otherwise to Retreating exactly when the mouse is near. Retreating stays while the mouse is near, and otherwise goes to Wandering when the draw is below 0.7 and to Examining otherwise |
| CatProperties.ExamineDurationBounds | cat-behavior.c:129-135 | An examining cat always leaves for Wandering once more than the maximum duration has elapsed, and never before the minimum |
| Behavior.ClampAxis | cat-behavior.c:164-182 | One axis: it bounces exactly when it is below 0 or beyond the far edge. A bounce puts it on the violated edge with velocity −v × 0.7, and an axis that does not bounce is untouched. On a non-negative range the result lies inside it, and the speed never grows |
| Behavior.Bounce | cat-behavior.c:162-182 | Boundary resolution changes only position and velocity, puts the cat inside [0, screen − texture] on each axis where that range is non-empty, reports a bounce exactly when some axis was out of range, keeps each in-range axis unchanged, sets each velocity component to either v or −v × 0.7, and never increases the speed |
| Behavior.CatBehavior.IntegrateAndBounce | cat-behavior.c:158-182 | Moving by velocity × seconds and then clamping updates the record, and yields the bounce flag, as `Bounce(Integrate(...))` says |
| Behavior.Rehead | cat-behavior.c:184-189 | The velocity is replaced by base speed along the new heading exactly when a bounce occurred, the cat is Wandering and the draw is below 0.4; otherwise nothing changes |
| Behavior.CatBehavior.ReheadAfterBounce | cat-behavior.c:184-189 | Updates the record as `Rehead` says |
| Behavior.Step | cat-behavior.c:109-190 | A tick never changes the screen, texture, configuration or mouse fields, ends in the state the transition chose, and leaves the cat inside [0, screen − texture] on each axis where that range is non-empty |
| Behavior.CatBehavior.Tick | cat-behavior.c:109-190 | The tick updates the record as `Step` says: transition, then integration and bounce, then the optional new heading |
| Behavior.CatBehavior.GetPosition | cat-behavior.c:219-222 | Returns the current position |
| CatProperties.ExaminingCatStaysPut | cat-behavior.c:75 | An on-screen examining cat that stays Examining keeps its position and zero velocity through a tick |
| CatProperties.TransitionKeepsSpeedInvariant | cat-behavior.c:113-156 | Every transition preserves the per-state speed bounds: zero while examining, at most base speed while wandering, at most retreat speed while retreating |
| CatProperties.BounceKeepsSpeedInvariant | cat-behavior.c:162-182 | Boundary resolution preserves the per-state speed bounds |
| CatProperties.ReheadKeepsSpeedInvariant | cat-behavior.c:184-189 | Re-heading preserves the per-state speed bounds |
| CatProperties.ReheadSpeed | cat-behavior.c:185-188 | A wandering cat that re-heads after a bounce moves at exactly its base speed again |
| CatProperties.MotionKeepsSpeedInvariant | cat-behavior.c:158-189 | Integration, bounce and re-heading together preserve the per-state speed bounds |
| CatProperties.StepKeepsSpeedInvariant | cat-behavior.c:109-190 | A whole tick preserves the per-state speed bounds |
| CatProperties.RunKeepsSetup | cat-behavior.c:51-190 | No sequence of mouse reports and ticks changes the screen, texture size or configuration |
| CatProperties.RunStaysOnScreen | cat-behavior.c:158-182 | A cat that starts on screen stays on screen through any sequence of frames |
| CatProperties.RunKeepsSpeedInvariant | cat-behavior.c:51-190 | The per-state speed bounds hold after any sequence of frames |
| CatProperties.RunWithoutMouseNeverRetreats | cat-behavior.c:59 | If every reported mouse x is negative, a cat that is not retreating never starts to retreat |
| CatProperties.InitialIsSound | cat-behavior.c:24-49 | The initial record is on screen and satisfies the per-state speed bounds |
| CatProperties.NoPointerScenario | cat-behavior.c:13-20 | On an 800 × 600 screen with the pointer query failing every frame (−1, −1), the cat never retreats, stays inside the screen and keeps its speed bounds |
| CatProperties.RetreatFromMouseOnTheRight | cat-behavior.c:97-101 | With the mouse 50 pixels to the right, the cat retreats at (−90, 0) |
| CatProperties.RetreatFromMouseOnTop | cat-behavior.c:102-106 | With the mouse on the cat, the retreat falls back to (retreat speed, 0) |
| CatProperties.BounceOffLeftEdge | cat-behavior.c:164-167 | Integrated to x = −5 with vx = −20, the axis is clamped to 0 with vx = 14 |
| CatProperties.RetreatingBounceLosesSpeed | cat-behavior.c:162-189 | A retreating cat that hits the left edge keeps retreating at 63 pixels per second, below the retreat speed of 90 |

## Left out

- `get_global_mouse_position` (cat-behavior.c:6-22) is not modelled. It is a platform pointer query. The mouse position is an argument of the mouse report instead, and that covers the (−1, −1) the query returns on failure.
- `cat_behavior_load_texture` and `cat_behavior_destroy` (cat-behavior.c:192-217) are not modelled. They create and release GPU resources. The texture size is a pair of natural-number fields, and the texture handle is not part of the record.
- curious-cat.c is not part of this model. It is plugin registration, settings, rendering and seeding of the random generator.
- `time(NULL)`, `rand()`, `sqrtf`, `cosf` and `sinf` are not modelled. They become arguments as described above. The uniformity of the draws and headings is not modelled; only their ranges are.
- Floating-point rounding is not modelled. The model uses exact reals, so constants such as `0.7f` and `0.3f` are their decimal values, and the 32-bit float conversions of the screen size and the elapsed time are exact.
- The host may overwrite the configuration fields at any time; the plugin sets `base_speed` from its settings right after initialisation (curious-cat.c:53). The model does not include such writes. The single-tick lemmas hold for whatever configuration the record carries, but `InitialIsSound`, `RunKeepsSpeedInvariant` and `NoPointerScenario` hold only for runs without such writes: a cat initialised at speed 30 whose `base_speed` is then lowered to 10 breaks the speed bound from the first frame.
- A tick reads the clock more than once: at cat-behavior.c:110 and again inside the entry action it calls (cat-behavior.c:68, 80, 90). The model uses one `now` for all of these reads, so it does not capture an entry time one second later than the elapsed time the tick measured.
- The proximity test takes no square root. It compares the squared distance with the squared radius. `NearbyMeansWithinRadius` proves this agrees with the distance test of cat-behavior.c:58-59.
- Behavior.Rehead: its contract does not state the speed after a re-heading. `ReheadSpeed` proves that speed is exactly the base speed.
- Behavior.CatBehavior.Tick: its contract does not repeat the on-screen and speed bounds. It ties the tick to `Step`, and `Step` and the lemmas about it carry those bounds.
