/** Obstacles of the runner and the factory that spawns them (`spawnObstacle`
    and `spawnPortal`). The factory is a decision tree over successive draws
    of `Math.random()`; here each draw is an explicit parameter. */
module Obstacles {
  import opened Geometry
  import opened Physics

  /** The obstacle types, by the tag strings of the source. */
  datatype Kind =
    | PortalFly       // 'portal_fly': switches to ship mode
    | PortalGravity   // 'portal_gravity': cube mode, inverted gravity
    | PortalNormal    // 'portal_normal': cube mode, normal gravity
    | CeilingSpike    // 'ceiling_spike'
    | FloorSpike      // 'floor_spike'
    | Floating        // 'floating': landable
    | Tall            // 'tall'
    | Spike           // 'spike'
    | Normal          // 'normal'
    | Platform        // 'platform': landable
  {
    predicate IsPortal() { PortalFly? || PortalGravity? || PortalNormal? }
    /** The kinds the player may land on. */
    predicate IsLandable() { Platform? || Floating? }
    /** The kinds whose every contact is a miss. */
    predicate IsHazard() { Normal? || Spike? || FloorSpike? || CeilingSpike? || Tall? }
  }

  datatype Option<T> = None | Some(value: T)

  /** An obstacle record. `value` is absent on portals, which the source builds
      without a `value` field. Colours are left out. */
  datatype Obstacle = Obstacle(
    x: real, y: real, width: real, height: real,
    kind: Kind, value: Option<int>,
    passed: bool, hit: bool)
  {
    function Bounds(): Rect { Rect(x, y, width, height) }
  }

  /** The amount passed to the reward callback: `obs.value || 10`, so a missing
      or zero value pays 10. */
  function RewardAmount(o: Obstacle): (amount: int)
    ensures o.value.Some? && o.value.value != 0 ==> amount == o.value.value
    ensures o.value.None? ==> amount == 10
    ensures o.value == Some(0) ==> amount == 10
  {
    match o.value
    case Some(v) => if v != 0 then v else 10
    case None => 10
  }

  /** One value of `Math.random()`. */
  type Roll = r: real | 0.0 <= r < 1.0

  /** The draws of `Math.random()` made by one call of `spawnObstacle`, in call
      order. A call uses between one and five of them; the rest are ignored. */
  datatype Draws = Draws(d0: Roll, d1: Roll, d2: Roll, d3: Roll, d4: Roll)

  // Spawn timing.
  const CubeSpawnInterval: nat := 120
  const ShipSpawnInterval: nat := 15

  /** The portal geometry of `spawnPortal`: 30 by 60, 80 units from the
      gravity-relevant edge, entering at the right edge of the canvas. */
  function Portal(kind: Kind, g: Gravity, groundY: real, canvasWidth: real): (o: Obstacle)
    requires kind.IsPortal()
    ensures o.kind == kind && o.value == None && !o.passed && !o.hit
    ensures o.x == canvasWidth && o.width == 30.0 && o.height == 60.0
    ensures g == 1 ==> groundY - o.y == 80.0
    ensures g == -1 ==> o.y == 80.0
  {
    Obstacle(canvasWidth, if g == 1 then groundY - 80.0 else 80.0, 30.0, 60.0, kind, None, false, false)
  }

  /** The reward of a non-portal obstacle: half its height rounded down, at least 1. */
  function ValueOf(height: real): (v: int)
    ensures v >= 1
    ensures height >= 2.0 ==> v == (height / 2.0).Floor
  {
    var v := (height * 0.5).Floor;
    if v < 1 then 1 else v
  }

  /** An obstacle anchored to the gravity-relevant edge: standing on ground
      level under gravity 1, hanging from y = 0 under gravity -1. */
  function OnEdge(g: Gravity, groundY: real, height: real): real
  {
    if g == 1 then groundY - height else 0.0
  }

  /** Kind, y, width and height of a non-portal obstacle in ship mode. */
  function ShipShape(groundY: real, d: Draws): (Kind, real, real, real)
  {
    if d.d1 < 0.25 then
      (CeilingSpike, 0.0, 30.0 + d.d2 * 20.0, 40.0 + d.d3 * 40.0)
    else if d.d1 < 0.50 then
      var height := 40.0 + d.d3 * 40.0;
      (FloorSpike, groundY - height, 30.0 + d.d2 * 20.0, height)
    else
      var height := 30.0 + d.d3 * 40.0;
      (Floating, 20.0 + Scale(d.d4, groundY - height - 40.0), 40.0 + d.d2 * 30.0, height)
  }

  /** Kind, y, width and height of a non-portal obstacle in cube mode; the
      first draw has already been spent on the kind roll. */
  function CubeShape(g: Gravity, groundY: real, d: Draws): (Kind, real, real, real)
  {
    if d.d0 < 0.35 then
      var dist := 60.0 + d.d2 * 40.0;
      (Floating, if g == 1 then groundY - dist else dist, 40.0 + d.d1 * 30.0, 30.0)
    else if d.d0 < 0.55 then
      var height := 70.0 + d.d1 * 30.0;
      (Tall, OnEdge(g, groundY, height), 20.0, height)
    else if d.d0 < 0.75 then
      (Spike, OnEdge(g, groundY, 30.0), 30.0, 30.0)
    else if d.d0 < 0.80 then
      var height := 40.0 + d.d2 * 30.0;
      (Normal, OnEdge(g, groundY, height), 30.0 + d.d1 * 40.0, height)
    else
      (Platform, OnEdge(g, groundY, 60.0), 60.0, 60.0)
  }

  /** `spawnObstacle`: the obstacle appended to the list. */
  function Spawn(mode: Mode, g: Gravity, groundY: real, canvasWidth: real, d: Draws): (o: Obstacle)
  {
    if d.d0 < 0.05 then Portal(PortalFly, g, groundY, canvasWidth)
    else if d.d0 < 0.10 then Portal(PortalGravity, g, groundY, canvasWidth)
    else if d.d0 < 0.15 then Portal(PortalNormal, g, groundY, canvasWidth)
    else
      var (kind, y, width, height) :=
        if mode == Ship then ShipShape(groundY, d) else CubeShape(g, groundY, d);
      Obstacle(canvasWidth, y, width, height, kind, Some(ValueOf(height)), false, false)
  }

  /** Every spawned obstacle enters at the right edge of the canvas, unresolved;
      a portal comes exactly from a first draw below 0.15, a twentieth for each
      portal kind, and carries no value; every other obstacle is worth half its
      height, which is between 15 and 49. */
  lemma SpawnEntersUnresolved(mode: Mode, g: Gravity, groundY: real, canvasWidth: real, d: Draws)
    ensures var o := Spawn(mode, g, groundY, canvasWidth, d);
      && o.x == canvasWidth && !o.passed && !o.hit
      && (o.kind.IsPortal() <==> d.d0 < 0.15)
      && (o.kind == PortalFly <==> d.d0 < 0.05)
      && (o.kind == PortalGravity <==> 0.05 <= d.d0 < 0.10)
      && (o.kind == PortalNormal <==> 0.10 <= d.d0 < 0.15)
      && (o.kind.IsPortal() ==> o.value == None && o.width == 30.0 && o.height == 60.0 &&
                                o.y == (if g == 1 then groundY - 80.0 else 80.0))
      && (!o.kind.IsPortal() ==> o.value == Some((o.height / 2.0).Floor) &&
                                 15 <= o.value.value <= 49 && RewardAmount(o) == o.value.value)
  {
    var o := Spawn(mode, g, groundY, canvasWidth, d);
    if !o.kind.IsPortal() {
      assert 30.0 <= o.height < 100.0 by { SpawnSizes(mode, g, groundY, canvasWidth, d); }
      FloorOfHalf(o.height);
    }
  }

  /** Half of a height in [30, 100) rounds down to a value in [15, 49]. */
  lemma FloorOfHalf(h: real)
    requires 30.0 <= h < 100.0
    ensures (h * 0.5).Floor == (h / 2.0).Floor
    ensures 15 <= (h / 2.0).Floor <= 49
  {
    assert h * 0.5 == h / 2.0;
  }

  /** The sizes and kinds each mode can produce. Ship mode: a ceiling or floor
      spike 30-50 wide and 40-80 tall (a quarter of the second draw each), else
      a floating block 40-70 by 30-70. Cube mode: a floating block 40-70 by 30,
      a tall wall 20 by 70-100, a 30 by 30 spike, a normal block 30-70 by 40-70
      or a 60 by 60 platform, by the bands [0.15, 0.35), [0.35, 0.55),
      [0.55, 0.75), [0.75, 0.80) and [0.80, 1) of the first draw. */
  lemma SpawnSizes(mode: Mode, g: Gravity, groundY: real, canvasWidth: real, d: Draws)
    ensures var o := Spawn(mode, g, groundY, canvasWidth, d);
      && 30.0 <= o.height < 100.0
      && (mode == Ship && d.d0 >= 0.15 ==>
            (o.kind == CeilingSpike <==> d.d1 < 0.25) &&
            (o.kind == FloorSpike <==> 0.25 <= d.d1 < 0.50) &&
            (o.kind == Floating <==> 0.50 <= d.d1))
      && (mode == Cube && d.d0 >= 0.15 ==>
            (o.kind == Floating <==> d.d0 < 0.35) &&
            (o.kind == Tall <==> 0.35 <= d.d0 < 0.55) &&
            (o.kind == Spike <==> 0.55 <= d.d0 < 0.75) &&
            (o.kind == Normal <==> 0.75 <= d.d0 < 0.80) &&
            (o.kind == Platform <==> 0.80 <= d.d0))
      && (o.kind == CeilingSpike || o.kind == FloorSpike ==>
            30.0 <= o.width < 50.0 && 40.0 <= o.height < 80.0)
      && (o.kind == Floating && mode == Ship ==> 40.0 <= o.width < 70.0 && 30.0 <= o.height < 70.0)
      && (o.kind == Floating && mode == Cube ==> 40.0 <= o.width < 70.0 && o.height == 30.0)
      && (o.kind == Tall ==> o.width == 20.0 && 70.0 <= o.height < 100.0)
      && (o.kind == Spike ==> o.width == 30.0 && o.height == 30.0)
      && (o.kind == Normal ==> 30.0 <= o.width < 70.0 && 40.0 <= o.height < 70.0)
      && (o.kind == Platform ==> o.width == 60.0 && o.height == 60.0)
  {
  }

  /** Where each kind is placed. Spikes in ship mode hang from y = 0 or stand on
      ground level; tall walls, spikes, normal blocks and platforms sit on the
      gravity-relevant edge; a cube-mode floating block is 60-100 units from that
      edge; a ship-mode floating block keeps 20 units clear of both edges when
      the world has room for it. */
  lemma SpawnPlacement(mode: Mode, g: Gravity, groundY: real, canvasWidth: real, d: Draws)
    ensures var o := Spawn(mode, g, groundY, canvasWidth, d);
      && (o.kind == CeilingSpike ==> o.y == 0.0)
      && (o.kind == FloorSpike ==> o.y + o.height == groundY)
      && (o.kind.Tall? || o.kind.Spike? || o.kind.Normal? || o.kind.Platform? ==>
            (g == 1 ==> o.y + o.height == groundY) && (g == -1 ==> o.y == 0.0))
      && (o.kind == Floating && mode == Cube ==>
            (g == 1 ==> 60.0 <= groundY - o.y < 100.0) && (g == -1 ==> 60.0 <= o.y < 100.0))
      && (o.kind == Floating && mode == Ship && groundY - o.height - 40.0 >= 0.0 ==>
            20.0 <= o.y && o.y + o.height <= groundY - 20.0)
  {
    if d.d0 >= 0.15 {
      if mode == Ship {
        ShipPlacement(groundY, d);
      } else {
        CubePlacement(g, groundY, d);
      }
    }
  }

  lemma ShipPlacement(groundY: real, d: Draws)
    ensures var (kind, y, width, height) := ShipShape(groundY, d);
      && (kind == CeilingSpike ==> y == 0.0)
      && (kind == FloorSpike ==> y + height == groundY)
      && (kind == CeilingSpike || kind == FloorSpike || kind == Floating)
      && (kind == Floating && groundY - height - 40.0 >= 0.0 ==> 20.0 <= y && y + height <= groundY - 20.0)
  {
    if d.d1 >= 0.50 {
      var height := 30.0 + d.d3 * 40.0;
      assert ShipShape(groundY, d).1 == 20.0 + Scale(d.d4, groundY - height - 40.0);
    }
  }

  lemma CubePlacement(g: Gravity, groundY: real, d: Draws)
    ensures var (kind, y, width, height) := CubeShape(g, groundY, d);
      && (kind.Tall? || kind.Spike? || kind.Normal? || kind.Platform? ==>
            (g == 1 ==> y + height == groundY) && (g == -1 ==> y == 0.0))
      && (kind == Floating ==> (g == 1 ==> 60.0 <= groundY - y < 100.0) && (g == -1 ==> 60.0 <= y < 100.0))
      && (kind == Floating || kind.Tall? || kind.Spike? || kind.Normal? || kind.Platform?)
  {
  }

  /** A draw spread over a span: `Math.random() * span`. A non-negative span
      yields a point inside it. */
  function Scale(r: Roll, span: real): (p: real)
    ensures span >= 0.0 ==> 0.0 <= p <= span
  {
    assert span >= 0.0 ==> 0.0 <= r * span <= span by {
      if span >= 0.0 {
        assert (1.0 - r) * span >= 0.0;
      }
    }
    r * span
  }
}
