/** The player's vertical motion in the runner: one frame of integration in
    cube or ship mode, the world-bound clamp whose "floor" depends on the
    gravity sign, and the jump impulse. Everything here is a function of the
    player's vertical state; `RunnerEngine.RunnerGame` performs the same steps
    in place. */
module Physics {

  /** The two movement modes. */
  datatype Mode = Cube | Ship

  /** The gravity sign: 1 pulls towards the bottom of the canvas, -1 towards the top. */
  type Gravity = g: int | g == 1 || g == -1 witness 1

  // The player's fixed geometry and tuning constants.
  const PlayerX: real := 50.0
  const PlayerWidth: real := 30.0
  const PlayerHeight: real := 30.0
  const JumpStrength: real := -12.0
  const GravityPull: real := 0.6
  /** Ship mode falls with 0.6 of the cube's pull. */
  const ShipPullFactor: real := 0.6
  /** Ship mode caps the vertical speed at this magnitude. */
  const MaxShipSpeed: real := 8.0

  /** The vertical state of the player. */
  datatype Body = Body(y: real, vy: real, grounded: bool)

  /** One frame of gravity: velocity first, then position with the new velocity.
      In ship mode the speed is capped after the pull is applied. */
  function Integrate(mode: Mode, g: Gravity, b: Body): (r: Body)
    ensures r.grounded == b.grounded
    ensures r.y == b.y + r.vy
    ensures mode == Cube ==> r.vy == b.vy + 0.6 * g as real
    ensures mode == Ship ==> -8.0 <= r.vy <= 8.0
    ensures mode == Ship && -8.0 <= b.vy + 0.36 * g as real <= 8.0 ==> r.vy == b.vy + 0.36 * g as real
    ensures mode == Ship && b.vy + 0.36 * g as real > 8.0 ==> r.vy == 8.0
    ensures mode == Ship && b.vy + 0.36 * g as real < -8.0 ==> r.vy == -8.0
  {
    match mode
    case Cube =>
      var vy := b.vy + GravityPull * g as real;
      Body(b.y + vy, vy, b.grounded)
    case Ship =>
      var vy0 := b.vy + GravityPull * ShipPullFactor * g as real;
      var vy1 := if vy0 > MaxShipSpeed then MaxShipSpeed else vy0;
      var vy := if vy1 < -MaxShipSpeed then -MaxShipSpeed else vy1;
      Body(b.y + vy, vy, b.grounded)
  }

  /** The player rests on the bottom edge (y + height >= groundY). */
  predicate AtBottom(groundY: real, y: real) { y + PlayerHeight >= groundY }

  /** The world-bound clamp. With gravity 1 the floor is the bottom edge
      (ground level) and the ceiling is y = 0; with gravity -1 the roles swap.
      Reaching the floor lands the player (grounded only in cube mode);
      reaching either edge stops the vertical motion. */
  function Clamp(mode: Mode, g: Gravity, groundY: real, b: Body): (r: Body)
    // Given room for the player, the clamped position is inside the world.
    ensures groundY >= PlayerHeight ==> 0.0 <= r.y <= groundY - PlayerHeight
    // Only cube mode, and only the gravity-relevant edge, sets the grounded flag.
    ensures r.grounded <==>
            b.grounded ||
            (mode == Cube && (if g == 1 then AtBottom(groundY, b.y) else b.y <= 0.0))
    // Inside the world nothing changes; under gravity 1 the ceiling test is
    // strict, so a player exactly on the ceiling is left as it is.
    ensures (if g == 1 then 0.0 <= b.y else 0.0 < b.y) && !AtBottom(groundY, b.y) ==> r == b
    // At or beyond the bottom edge, or beyond the top edge (at it, under
    // gravity -1), the player is put exactly on that edge and stopped.
    ensures groundY >= PlayerHeight && g == 1 && AtBottom(groundY, b.y) ==>
              r.y == groundY - PlayerHeight && r.vy == 0.0
    ensures groundY >= PlayerHeight && g == 1 && b.y < 0.0 ==> r.y == 0.0 && r.vy == 0.0
    ensures groundY >= PlayerHeight && g == -1 && b.y <= 0.0 ==> r.y == 0.0 && r.vy == 0.0
    ensures g == -1 && 0.0 < b.y && AtBottom(groundY, b.y) ==> r.y == groundY - PlayerHeight && r.vy == 0.0
    // A clamp either keeps the velocity or stops the player.
    ensures r.vy == b.vy || r.vy == 0.0
  {
    if g == 1 then
      var b1 := if AtBottom(groundY, b.y)
                then Body(groundY - PlayerHeight, 0.0, b.grounded || mode == Cube)
                else b;
      if b1.y < 0.0 then b1.(y := 0.0, vy := 0.0) else b1
    else
      var b1 := if b.y <= 0.0
                then Body(0.0, 0.0, b.grounded || mode == Cube)
                else b;
      if AtBottom(groundY, b1.y) then b1.(y := groundY - PlayerHeight, vy := 0.0) else b1
  }

  /** The physics half of a frame: integrate, then clamp. */
  function Fall(mode: Mode, g: Gravity, groundY: real, b: Body): (r: Body)
    // Given room for the player, a frame always ends inside the world.
    ensures groundY >= PlayerHeight ==> 0.0 <= r.y <= groundY - PlayerHeight
    // Only a cube lands.
    ensures r.grounded ==> b.grounded || mode == Cube
    // A cube in free flight gains 0.6 * g of speed and moves by the new speed.
    ensures var vy := b.vy + 0.6 * g as real;
            mode == Cube && 0.0 < b.y + vy && b.y + vy + PlayerHeight < groundY ==>
              r == Body(b.y + vy, vy, b.grounded)
    // An integrated position strictly inside the world (or exactly on the
    // ceiling under gravity 1) is kept as it is.
    ensures var m := Integrate(mode, g, b);
            (if g == 1 then 0.0 <= m.y else 0.0 < m.y) && !AtBottom(groundY, m.y) ==> r == m
    // An integrated position at the bottom edge or beyond, or beyond the top
    // edge (at it, under gravity -1), is put exactly on that edge, stopped.
    ensures var m := Integrate(mode, g, b);
            groundY >= PlayerHeight && g == 1 && AtBottom(groundY, m.y) ==>
              r.y == groundY - PlayerHeight && r.vy == 0.0
    ensures var m := Integrate(mode, g, b);
            groundY >= PlayerHeight && g == 1 && m.y < 0.0 ==> r.y == 0.0 && r.vy == 0.0
    ensures var m := Integrate(mode, g, b);
            groundY >= PlayerHeight && g == -1 && m.y <= 0.0 ==> r.y == 0.0 && r.vy == 0.0
    ensures var m := Integrate(mode, g, b);
            g == -1 && 0.0 < m.y && AtBottom(groundY, m.y) ==> r.y == groundY - PlayerHeight && r.vy == 0.0
    // Either the speed is the integrated one or the player was stopped at an edge.
    ensures r.vy == Integrate(mode, g, b).vy || r.vy == 0.0
  {
    Clamp(mode, g, groundY, Integrate(mode, g, b))
  }

  /** The jump impulse: in ship mode always (a flap), in cube mode only from the
      ground, which it leaves. */
  function Jump(mode: Mode, g: Gravity, b: Body): (r: Body)
    ensures r.y == b.y
    ensures mode == Cube && !b.grounded ==> r == b
    ensures mode == Ship || b.grounded ==> r.vy == -12.0 * g as real
    ensures r.grounded == (b.grounded && mode == Ship)
  {
    if mode == Ship then b.(vy := JumpStrength * g as real)
    else if b.grounded then b.(vy := JumpStrength * g as real, grounded := false)
    else b
  }

  /** The reflection of a state across the middle of the world: a body at y
      under gravity 1 corresponds to one at groundY - y - height under gravity -1,
      moving the opposite way. */
  function Mirror(groundY: real, b: Body): Body
  {
    Body(groundY - b.y - PlayerHeight, -b.vy, b.grounded)
  }

  /** Gravity symmetry of one frame: falling under gravity -1 from the mirrored
      state lands on the mirror image of falling under gravity 1, in either mode.
      The velocities agree too, except when the normal-gravity frame ends exactly
      on the ceiling (y = 0): there the normal-gravity ceiling test `y < 0` is
      strict while the inverted one `y + height >= groundY` is not, so only the
      inverted frame stops the player. */
  lemma {:induction false} FallMirrors(mode: Mode, groundY: real, b: Body)
    requires groundY >= PlayerHeight
    ensures Fall(mode, -1, groundY, Mirror(groundY, b)).y == Mirror(groundY, Fall(mode, 1, groundY, b)).y
    ensures Fall(mode, -1, groundY, Mirror(groundY, b)).grounded == Fall(mode, 1, groundY, b).grounded
    ensures Integrate(mode, 1, b).y != 0.0 ==>
            Fall(mode, -1, groundY, Mirror(groundY, b)) == Mirror(groundY, Fall(mode, 1, groundY, b))
  {
    var m := Mirror(groundY, b);
    var up := Integrate(mode, 1, b);
    var down := Integrate(mode, -1, m);
    assert down == Mirror(groundY, up);
  }

  /** The exception in FallMirrors is real: a cube rising into the ceiling so
      that it ends the frame exactly at y = 0 keeps its upward speed under
      gravity 1, while its mirror image is stopped. */
  lemma CeilingTouchBreaksSymmetry()
    ensures Fall(Cube, 1, 100.0, Body(12.0, -12.6, false)) == Body(0.0, -12.0, false)
    ensures Fall(Cube, -1, 100.0, Mirror(100.0, Body(12.0, -12.6, false))) == Body(70.0, 0.0, false)
  {
  }
}
