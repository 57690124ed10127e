/** The runner mini-game as the objects the source mutates: the player record
    and the `RunnerGame` object with its lifecycle flags, physics, spawn timer
    and obstacle list. Each frame (`Update`) is proved to perform exactly
    `Collision.Tick` in place, and to credit the shared state with exactly the
    rewards that frame requested. */
module RunnerEngine {
  import opened Geometry
  import opened Physics
  import opened Obstacles
  import opened Collision
  import Economy

  /** What the reward callback credits for a list of events: the sum of
      `floor(amount * multiplier)` over the rewards. */
  function Paid(events: seq<Event>, m: real): (p: int)
    // With a multiplier of at least 1, every reward of at least 1 pays at least 1.
    ensures RewardsPositive(events) && m >= 1.0 ==> p >= Rewards(events)
  {
    if events == [] then 0
    else
      var init := events[..|events| - 1];
      var e := events[|events| - 1];
      assert RewardsPositive(events) ==> RewardsPositive(init) by {
        assert forall k :: 0 <= k < |init| ==> init[k] == events[k];
      }
      var pay := if e.Reward? then Economy.Credit(e.amount, m) else 0;
      assert e.Reward? && e.amount >= 0 && m >= 1.0 ==> pay >= e.amount by {
        if e.Reward? && e.amount >= 0 && m >= 1.0 {
          Economy.CreditAtLeastRequested(e.amount, m, m);
        }
      }
      Paid(init, m) + pay
  }

  lemma {:induction false} PaidAppend(a: seq<Event>, b: seq<Event>, m: real)
    ensures Paid(a + b, m) == Paid(a, m) + Paid(b, m)
    decreases |b|
  {
    if b == [] {
      assert a + b == a;
    } else {
      assert (a + b)[..|a + b| - 1] == a + b[..|b| - 1];
      PaidAppend(a, b[..|b| - 1], m);
    }
  }

  /** Where the loop stands before handling index i: the obstacle at i is
      still the original one. */
  lemma SweepIndex(w0: World, obs0: seq<Obstacle>, i: nat, cur: seq<Obstacle>)
    requires i < |obs0|
    requires cur == obs0[..i + 1] + Scan(w0, obs0, i + 1).kept
    ensures i < |cur| && cur[i] == obs0[i]
    ensures cur[..i] == obs0[..i] && cur[i + 1..] == Scan(w0, obs0, i + 1).kept
  {
    assert obs0[..i + 1] == obs0[..i] + [obs0[i]];
  }

  /** Splicing the step's result into the list at index i is one more step
      of the sweep. */
  lemma SweepAdvance(w0: World, obs0: seq<Obstacle>, i: nat, cur: seq<Obstacle>, next: seq<Obstacle>)
    requires i < |obs0|
    requires cur == obs0[..i + 1] + Scan(w0, obs0, i + 1).kept
    requires var s := StepObstacle(Scan(w0, obs0, i + 1).world, obs0[i]);
             next == cur[..i] + (if s.kept then [s.obstacle] else []) + cur[i + 1..]
    ensures next == obs0[..i] + Scan(w0, obs0, i).kept
  {
    var rest := Scan(w0, obs0, i + 1);
    var s := StepObstacle(rest.world, obs0[i]);
    var piece := if s.kept then [s.obstacle] else [];
    assert obs0[..i + 1] == obs0[..i] + [obs0[i]];
    Splice(obs0[..i], obs0[i], piece, rest.kept, cur, next);
  }

  /** Replacing the element after `prefix` by `piece`. */
  lemma Splice<T>(prefix: seq<T>, x: T, piece: seq<T>, tail: seq<T>, cur: seq<T>, next: seq<T>)
    requires cur == prefix + [x] + tail
    requires next == cur[..|prefix|] + piece + cur[|prefix| + 1..]
    ensures next == prefix + (piece + tail)
  {
    assert cur[..|prefix|] == prefix;
    assert cur[|prefix| + 1..] == tail;
  }

  /** `Tick` in terms of the world after physics and the list after the
      spawn timer. */
  lemma TickUnfold(f: Frame, groundY: real, canvasWidth: real, d: Draws,
                   w: World, timer: nat, obs: seq<Obstacle>)
    requires w == f.world.(body := Fall(f.world.mode, f.world.gravity, groundY, f.world.body))
    requires var (t, spawn) := TimerStep(f.timer, SpawnInterval(w.mode));
             && timer == t
             && obs == f.obstacles + (if spawn then [Spawn(w.mode, w.gravity, groundY, canvasWidth, d)] else [])
    ensures var sweep := Scan(w, obs, 0);
            Tick(f, groundY, canvasWidth, d) == TickResult(Collision.Frame(sweep.world, timer, sweep.kept), sweep.events)
  {
    assert f.obstacles + [] == f.obstacles;
  }

  /** `StepObstacle` is the contact check followed by the pass handling. */
  lemma StepObstacleIs(w: World, o: Obstacle, c: Outcome, p: (Obstacle, seq<Event>))
    requires c == Contact(w, o.(x := o.x - GameSpeed))
    requires p == Pass(c.obstacle)
    ensures StepObstacle(w, o) == Step(c.world, p.0, !(p.0.x + p.0.width < RemovalEdge), c.events + p.1)
    ensures p.0.x == c.obstacle.x && p.0.width == c.obstacle.width
  {
  }

  /** A miss raised before a payment changes neither what is paid nor the
      positivity of the rewards. */
  lemma MissesPayNothing(hit: seq<Event>, pay: seq<Event>, m: real)
    requires hit == [] || hit == [Miss]
    ensures Paid(hit + pay, m) == Paid(pay, m)
    ensures RewardsPositive(pay) ==> RewardsPositive(hit + pay)
  {
    PaidAppend(hit, pay, m);
    if hit == [Miss] {
      assert hit[..0] == [];
    }
    if RewardsPositive(pay) {
      PositiveAppend(hit, pay);
    }
  }

  /** The player record: a fixed 30x30 box at x = 50 whose vertical state and
      skin change. */
  class Player {
    var y: real
    var vy: real
    var isGrounded: bool
    var skinIndex: int

    constructor ()
      ensures y == 0.0 && vy == 0.0 && !isGrounded && skinIndex == 0
    {
      y, vy, isGrounded, skinIndex := 0.0, 0.0, false, 0;
    }

    /** The vertical state as a value. */
    function State(): Body
      reads this
    {
      Body(y, vy, isGrounded)
    }
  }

  class RunnerGame {
    var isActive: bool
    var isPaused: bool
    var width: real
    var height: real
    var groundY: real
    const player: Player
    var obstacles: seq<Obstacle>
    var obstacleTimer: nat
    /** Frames between spawns in cube mode. */
    const obstacleInterval: nat := CubeSpawnInterval
    const gameSpeed: real := GameSpeed
    var mode: Mode
    var gravityScale: Gravity
    /** The flag `setGravity` clears on the game object; the player's own
        grounded flag is `player.isGrounded`. */
    var isGrounded: bool

    /** The game's invariant: the ground sits 50 units above the bottom of the
        canvas, and every obstacle that
        carries a value is worth at least 1. */
    predicate Valid()
      reads this
    {
      && groundY == height - 50.0
      && ValuesOk(obstacles)
    }

    function World(): World
      reads this, player
    {
      Collision.World(player.State(), mode, gravityScale, isGrounded)
    }

    function Frame(): Frame
      reads this, player
    {
      Collision.Frame(World(), obstacleTimer, obstacles)
    }

    /** A new, inactive and paused game sized to its container. */
    constructor (canvasWidth: real, canvasHeight: real)
      ensures Valid()
      ensures !isActive && isPaused
      ensures width == canvasWidth && height == canvasHeight
      ensures fresh(player) && player.State() == Body(0.0, 0.0, false) && player.skinIndex == 0
      ensures obstacles == [] && obstacleTimer == 0
      ensures mode == Cube && gravityScale == 1 && !isGrounded
    {
      isActive, isPaused := false, true;
      player := new Player();
      obstacles, obstacleTimer := [], 0;
      mode, gravityScale, isGrounded := Cube, 1, false;
      width, height := canvasWidth, canvasHeight;
      groundY := canvasHeight - 50.0;
    }

    /** `resize`: the canvas takes the container's size; the ground is 50
        units above its bottom edge. */
    method Resize(canvasWidth: real, canvasHeight: real)
      modifies this`width, this`height, this`groundY
      ensures width == canvasWidth && height == canvasHeight
      ensures groundY == canvasHeight - 50.0
      ensures old(Valid()) ==> Valid()
    {
      width, height := canvasWidth, canvasHeight;
      groundY := height - 50.0;
    }

    /** `jump`: a flap in ship mode; in cube mode only from the ground. */
    method Jump()
      modifies player`vy, player`isGrounded
      ensures player.State() == Physics.Jump(mode, gravityScale, old(player.State()))
    {
      if mode == Ship {
        player.vy := JumpStrength * gravityScale as real;
      } else if player.isGrounded {
        player.vy := JumpStrength * gravityScale as real;
        player.isGrounded := false;
      }
    }

    /** The input handlers: the activate signal jumps only while the game is
        active and not paused. */
    method Activate()
      modifies player`vy, player`isGrounded
      ensures isActive && !isPaused ==>
                player.State() == Physics.Jump(mode, gravityScale, old(player.State()))
      ensures !isActive || isPaused ==> unchanged(player)
    {
      if !isActive || isPaused {
        return;
      }
      Jump();
    }

    /** `switchMode`: sets the mode and zeroes the vertical speed. */
    method SwitchMode(m: Mode)
      modifies this`mode, player`vy
      ensures World() == Collision.SwitchMode(old(World()), m)
    {
      mode := m;
      player.vy := 0.0;
    }

    /** `setGravity`: only a change of sign takes effect. */
    method SetGravity(s: Gravity)
      modifies this`gravityScale, this`isGrounded, player`vy
      ensures World() == Collision.SetGravity(old(World()), s)
    {
      if gravityScale != s {
        gravityScale := s;
        player.vy := 0.0;
        isGrounded := false;
      }
    }

    /** `resetGravity`: back to normal gravity. */
    method ResetGravity()
      modifies this`gravityScale, this`isGrounded, player`vy
      ensures World() == Collision.SetGravity(old(World()), 1)
    {
      SetGravity(1);
    }

    /** `spawnPortal`: a 30x60 portal at the right edge, 80 units off the
        current floor. */
    method SpawnPortal(kind: Kind)
      requires kind.IsPortal()
      modifies this`obstacles
      ensures obstacles == old(obstacles) + [Portal(kind, gravityScale, groundY, width)]
      ensures old(Valid()) ==> Valid()
    {
      var y := if gravityScale == 1 then groundY - 80.0 else 80.0;
      obstacles := obstacles + [Obstacle(width, y, 30.0, 60.0, kind, None, false, false)];
      if old(ValuesOk(obstacles)) {
        ValuesAppend(old(obstacles), [Portal(kind, gravityScale, groundY, width)]);
      }
    }

    /** `spawnObstacle`: appends the obstacle the draws select. */
    method SpawnObstacle(d: Draws)
      modifies this`obstacles
      ensures obstacles == old(obstacles) + [Spawn(mode, gravityScale, groundY, width, d)]
      ensures old(Valid()) ==> Valid()
    {
      if d.d0 < 0.05 {
        SpawnPortal(PortalFly);
        return;
      } else if d.d0 < 0.10 {
        SpawnPortal(PortalGravity);
        return;
      } else if d.d0 < 0.15 {
        SpawnPortal(PortalNormal);
        return;
      }
      var kind, y, w, h;
      if mode == Ship {
        kind, y, w, h := ShipShape(groundY, d).0, ShipShape(groundY, d).1,
                         ShipShape(groundY, d).2, ShipShape(groundY, d).3;
      } else {
        kind, y, w, h := CubeShape(gravityScale, groundY, d).0, CubeShape(gravityScale, groundY, d).1,
                         CubeShape(gravityScale, groundY, d).2, CubeShape(gravityScale, groundY, d).3;
      }
      var value := (h * 0.5).Floor;
      if value < 1 {
        value := 1;
      }
      assert value == ValueOf(h);
      obstacles := obstacles + [Obstacle(width, y, w, h, kind, Some(value), false, false)];
      if old(ValuesOk(obstacles)) {
        ValuesAppend(old(obstacles), [Spawn(mode, gravityScale, groundY, width, d)]);
      }
    }

    /** The collision dispatch of `update` for an obstacle that overlaps the
        player: returns the obstacle with its flags and the events raised. */
    method ResolveCollision(o: Obstacle) returns (r: Obstacle, events: seq<Event>)
      modifies this`mode, this`gravityScale, this`isGrounded, player`y, player`vy, player`isGrounded
      ensures Outcome(World(), r, events) == Collide(old(World()), o)
    {
      r, events := o, [];
      if o.kind == PortalFly {
        SwitchMode(Ship);
        r := r.(hit := true);
      } else if o.kind == PortalGravity {
        SwitchMode(Cube);
        SetGravity(-1);
        r := r.(hit := true);
      } else if o.kind == PortalNormal {
        SwitchMode(Cube);
        ResetGravity();
        r := r.(hit := true);
      } else if o.kind.IsLandable() {
        var prevY := player.y - player.vy;
        var landed := false;
        if gravityScale == 1 {
          var wasAbove := prevY + PlayerHeight <= o.y + 15.0;
          if wasAbove && player.vy >= 0.0 {
            player.y := o.y - PlayerHeight;
            player.vy := 0.0;
            player.isGrounded := true;
            landed := true;
          }
        } else {
          var wasBelow := prevY >= o.y + o.height - 15.0;
          if wasBelow && player.vy <= 0.0 {
            player.y := o.y + o.height;
            player.vy := 0.0;
            player.isGrounded := true;
            landed := true;
          }
        }
        if !landed {
          events := [Miss];
        }
      } else {
        events := [Miss];
        r := r.(hit := true);
      }
    }

    /** `rewardPlayer`: hands the amount to the money callback when there is
        one (`wallet` is null when the clicker state is absent). */
    method RewardPlayer(amount: int, wallet: Economy.GameState?)
      modifies (if wallet == null then {} else {wallet})`clicks
      ensures wallet != null ==>
                wallet.clicks == old(wallet.clicks) + Economy.Credit(amount, wallet.moneyMultiplier)
      ensures wallet != null && old(wallet.Valid()) && amount >= 0 ==> wallet.Valid()
    {
      if wallet != null {
        var _ := wallet.AddMoney(amount);
      }
    }

    /** The physics and world-bound half of `update`. */
    method ApplyPhysics()
      modifies player`y, player`vy, player`isGrounded
      ensures player.State() == Fall(mode, gravityScale, groundY, old(player.State()))
    {
      ghost var b0 := player.State();
      var g := gravityScale;
      if mode == Cube {
        player.vy := player.vy + GravityPull * g as real;
        player.y := player.y + player.vy;
      } else {
        player.vy := player.vy + GravityPull * ShipPullFactor * g as real;
        if player.vy > MaxShipSpeed {
          player.vy := MaxShipSpeed;
        }
        if player.vy < -MaxShipSpeed {
          player.vy := -MaxShipSpeed;
        }
        player.y := player.y + player.vy;
      }
      assert player.State() == Integrate(mode, g, b0);
      if g == 1 {
        if player.y + PlayerHeight >= groundY {
          player.y := groundY - PlayerHeight;
          player.vy := 0.0;
          if mode == Cube {
            player.isGrounded := true;
          }
        }
        if player.y < 0.0 {
          player.y := 0.0;
          player.vy := 0.0;
        }
      } else {
        if player.y <= 0.0 {
          player.y := 0.0;
          player.vy := 0.0;
          if mode == Cube {
            player.isGrounded := true;
          }
        }
        if player.y + PlayerHeight >= groundY {
          player.y := groundY - PlayerHeight;
          player.vy := 0.0;
        }
      }
    }

    /** The spawn-timer part of `update`: count the frame, and past the
        interval of the current mode spawn an obstacle and restart the count. */
    method AdvanceTimer(d: Draws)
      requires Valid()
      modifies this`obstacleTimer, this`obstacles
      ensures Valid()
      ensures var (timer, spawn) := TimerStep(old(obstacleTimer), SpawnInterval(mode));
              && obstacleTimer == timer
              && obstacles == old(obstacles) + (if spawn then [Spawn(mode, gravityScale, groundY, width, d)] else [])
    {
      obstacleTimer := obstacleTimer + 1;
      var currentInterval := if mode == Ship then ShipSpawnInterval else obstacleInterval;
      if obstacleTimer > currentInterval {
        SpawnObstacle(d);
        obstacleTimer := 0;
        SpawnEntersUnresolved(mode, gravityScale, groundY, width, d);
        ValuesAppend(old(obstacles), [Spawn(mode, gravityScale, groundY, width, d)]);
      } else {
        assert old(obstacles) + [] == old(obstacles);
      }
    }

    /** One iteration of the obstacle loop of `update`, on the obstacle at
        index i: it is scrolled and resolved as `StepObstacle` says, then
        removed from the list or written back, and a reward is handed to the
        money callback as it is requested. */
    method StepAt(i: nat, wallet: Economy.GameState?) returns (events: seq<Event>)
      requires i < |obstacles|
      requires obstacles[i].value.None? || obstacles[i].value.value >= 1
      modifies this`mode, this`gravityScale, this`isGrounded, this`obstacles
      modifies player`y, player`vy, player`isGrounded
      modifies (if wallet == null then {} else {wallet})`clicks
      ensures var s := StepObstacle(old(World()), old(obstacles[i]));
              && World() == s.world && events == s.events
              && obstacles == old(obstacles[..i]) + (if s.kept then [s.obstacle] else []) + old(obstacles[i + 1..])
      ensures wallet != null ==> wallet.clicks == old(wallet.clicks) + Paid(events, wallet.moneyMultiplier)
      ensures wallet != null && old(wallet.Valid()) ==> wallet.Valid()
      ensures RewardsPositive(events)
    {
      ghost var w := World();
      ghost var o := obstacles[i];
      var obs := obstacles[i];
      obs := obs.(x := obs.x - gameSpeed);
      var hitEvents;
      obs, hitEvents := CheckObstacle(obs);
      ghost var c := Outcome(World(), obs, hitEvents);
      var removed := obs.x + obs.width < RemovalEdge;
      var payEvents;
      obs, payEvents := HandlePass(obs, wallet);
      StepObstacleIs(w, o, c, (obs, payEvents));
      if removed {
        obstacles := obstacles[..i] + obstacles[i + 1..];
      } else {
        obstacles := obstacles[..i] + [obs] + obstacles[i + 1..];
      }
      MissesPayNothing(hitEvents, payEvents, if wallet == null then 1.0 else wallet.moneyMultiplier);
      events := hitEvents + payEvents;
    }

    /** The reward handling of the obstacle loop: an obstacle whose right edge
        has just gone past the player is marked passed, and unless it was hit
        or is a portal its reward is handed to the money callback. */
    method HandlePass(o: Obstacle, wallet: Economy.GameState?) returns (r: Obstacle, events: seq<Event>)
      modifies (if wallet == null then {} else {wallet})`clicks
      ensures (r, events) == Pass(o)
      ensures wallet != null ==> wallet.clicks == old(wallet.clicks) + Paid(events, wallet.moneyMultiplier)
      ensures (o.value.None? || o.value.value >= 1) ==> RewardsPositive(events)
      ensures wallet != null && old(wallet.Valid()) && (o.value.None? || o.value.value >= 1) ==> wallet.Valid()
    {
      r, events := o, [];
      if !r.passed && r.x + r.width < PlayerX {
        r := r.(passed := true);
        if !r.hit && !r.kind.IsPortal() {
          RewardPlayer(RewardAmount(r), wallet);
          events := [Reward(RewardAmount(r))];
        }
      }
    }

    /** The collision check of the obstacle loop: an obstacle neither hit nor
        passed that overlaps the player is dispatched. */
    method CheckObstacle(o: Obstacle) returns (r: Obstacle, events: seq<Event>)
      modifies this`mode, this`gravityScale, this`isGrounded, player`y, player`vy, player`isGrounded
      ensures Outcome(World(), r, events) == Contact(old(World()), o)
    {
      r, events := o, [];
      if !o.hit && !o.passed && Overlaps(Rect(PlayerX, player.y, PlayerWidth, PlayerHeight), o.Bounds()) {
        r, events := ResolveCollision(o);
      }
    }

    /** The obstacle loop of `update`, from the last obstacle to the first:
        the result is `Scan` of the state it starts from, and the money
        callback receives exactly the rewards requested, in order. */
    method SweepObstacles(wallet: Economy.GameState?) returns (events: seq<Event>)
      requires ValuesOk(obstacles)
      modifies this`mode, this`gravityScale, this`isGrounded, this`obstacles
      modifies player`y, player`vy, player`isGrounded
      modifies (if wallet == null then {} else {wallet})`clicks
      ensures var r := Scan(old(World()), old(obstacles), 0);
              World() == r.world && obstacles == r.kept && events == r.events
      ensures wallet != null ==> wallet.clicks == old(wallet.clicks) + Paid(events, wallet.moneyMultiplier)
      ensures wallet != null && old(wallet.Valid()) ==> wallet.Valid()
      ensures RewardsPositive(events)
    {
      ghost var w0 := World();
      ghost var obs0 := obstacles;
      ghost var c0 := if wallet == null then 0 else wallet.clicks;
      events := [];
      var i := |obstacles|;
      assert obs0[..i] == obs0;
      while i > 0
        invariant 0 <= i <= |obs0|
        invariant obstacles == obs0[..i] + Scan(w0, obs0, i).kept
        invariant World() == Scan(w0, obs0, i).world
        invariant events == Scan(w0, obs0, i).events
        invariant wallet != null ==> wallet.clicks == c0 + Paid(events, wallet.moneyMultiplier)
        invariant wallet != null && old(wallet.Valid()) ==> wallet.Valid()
        invariant RewardsPositive(events)
        decreases i
      {
        i := i - 1;
        ghost var before := obstacles;
        SweepIndex(w0, obs0, i, before);
        var stepEvents := StepAt(i, wallet);
        SweepAdvance(w0, obs0, i, before, obstacles);
        PaidAppend(events, stepEvents, if wallet == null then 1.0 else wallet.moneyMultiplier);
        PositiveAppend(events, stepEvents);
        events := events + stepEvents;
      }
      assert obs0[..0] == [];
    }

    /** `update`: one frame. The new state is `Tick` of the old one; the
        money callback is credited with every reward the frame requested, in
        order, and nothing else. */
    method Update(d: Draws, wallet: Economy.GameState?) returns (events: seq<Event>)
      requires Valid()
      modifies this`mode, this`gravityScale, this`isGrounded, this`obstacles, this`obstacleTimer
      modifies player`y, player`vy, player`isGrounded
      modifies (if wallet == null then {} else {wallet})`clicks
      ensures Valid()
      ensures TickResult(Frame(), events) == Tick(old(Frame()), groundY, width, d)
      ensures wallet != null ==> wallet.clicks == old(wallet.clicks) + Paid(events, wallet.moneyMultiplier)
      ensures wallet != null && old(wallet.Valid()) ==> wallet.Valid()
      ensures RewardsPositive(events)
    {
      ghost var f := Frame();
      ApplyPhysics();
      ghost var w := World();
      assert w == f.world.(body := Fall(f.world.mode, f.world.gravity, groundY, f.world.body));
      AdvanceTimer(d);
      ghost var obs := obstacles;
      assert obs[0..] == obs;
      ScanRewardsPositive(w, obs, 0);
      events := SweepObstacles(wallet);
      TickUnfold(f, groundY, width, d, w, obstacleTimer, obs);
    }

    /** One pass of `gameLoop`: nothing at all happens while paused;
        otherwise a frame is run. */
    method GameLoop(d: Draws, wallet: Economy.GameState?) returns (ran: bool, events: seq<Event>)
      requires Valid()
      modifies this`mode, this`gravityScale, this`isGrounded, this`obstacles, this`obstacleTimer
      modifies player`y, player`vy, player`isGrounded
      modifies (if wallet == null then {} else {wallet})`clicks
      ensures Valid()
      ensures ran <==> !isPaused
      ensures !ran ==> events == [] && unchanged(this) && unchanged(player) &&
                       (wallet != null ==> unchanged(wallet))
      ensures ran ==> TickResult(Frame(), events) == Tick(old(Frame()), groundY, width, d)
      ensures wallet != null ==> wallet.clicks == old(wallet.clicks) + Paid(events, wallet.moneyMultiplier)
      ensures wallet != null && old(wallet.Valid()) ==> wallet.Valid()
    {
      if isPaused {
        return false, [];
      }
      events := Update(d, wallet);
      ran := true;
    }

    /** `start`: activates and unpauses the game, then runs the first frame. */
    method Start(d: Draws, wallet: Economy.GameState?) returns (events: seq<Event>)
      requires Valid()
      modifies this`isActive, this`isPaused
      modifies this`mode, this`gravityScale, this`isGrounded, this`obstacles, this`obstacleTimer
      modifies player`y, player`vy, player`isGrounded
      modifies (if wallet == null then {} else {wallet})`clicks
      ensures Valid() && isActive && !isPaused
      ensures TickResult(Frame(), events) == Tick(old(Frame()), groundY, width, d)
      ensures wallet != null ==> wallet.clicks == old(wallet.clicks) + Paid(events, wallet.moneyMultiplier)
    {
      isActive := true;
      isPaused := false;
      var ran;
      ran, events := GameLoop(d, wallet);
    }

    /** `pause`: the game loop stops at its next pass; nothing else changes. */
    method Pause()
      modifies this`isPaused
      ensures isPaused
    {
      isPaused := true;
    }

    /** `resume`: only a game that is active and paused resumes, running a
        frame at once; otherwise nothing happens. */
    method Resume(d: Draws, wallet: Economy.GameState?) returns (resumed: bool, events: seq<Event>)
      requires Valid()
      modifies this`isPaused
      modifies this`mode, this`gravityScale, this`isGrounded, this`obstacles, this`obstacleTimer
      modifies player`y, player`vy, player`isGrounded
      modifies (if wallet == null then {} else {wallet})`clicks
      ensures Valid()
      ensures resumed <==> old(isActive && isPaused)
      ensures resumed ==> !isPaused && TickResult(Frame(), events) == Tick(old(Frame()), groundY, width, d)
      ensures !resumed ==> events == [] && unchanged(this) && unchanged(player) &&
                           (wallet != null ==> unchanged(wallet))
      ensures wallet != null ==> wallet.clicks == old(wallet.clicks) + Paid(events, wallet.moneyMultiplier)
    {
      resumed, events := false, [];
      if isActive && isPaused {
        isPaused := false;
        var ran;
        ran, events := GameLoop(d, wallet);
        resumed := true;
      }
    }
  }
}
