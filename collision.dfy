/** The runner's frame as functions: the collision dispatch for one obstacle,
    the per-obstacle step of `update` (scroll, collide, remove, reward), the
    backwards sweep over the obstacle list, and the whole frame. The class
    `RunnerEngine.RunnerGame` is proved to perform exactly these steps in place;
    the lemmas here state what they guarantee. */
module Collision {
  import opened Geometry
  import opened Physics
  import opened Obstacles

  /** Obstacles scroll left by this much every frame. */
  const GameSpeed: real := 5.0
  /** An obstacle is dropped once its right edge is this far left of the canvas. */
  const RemovalEdge: real := -100.0

  /** Everything a frame may change apart from the obstacle list: the player's
      vertical state, the mode, the gravity sign and the `isGrounded` flag that
      `setGravity` writes on the game object itself (not on the player). */
  datatype World = World(body: Body, mode: Mode, gravity: Gravity, gameGrounded: bool)

  /** The side effects the source reports: `hitObstacle` (a "Miss!") and a call
      of the reward callback with the requested amount. */
  datatype Event = Miss | Reward(amount: int)

  function PlayerRect(w: World): Rect
  {
    Rect(PlayerX, w.body.y, PlayerWidth, PlayerHeight)
  }

  /** `switchMode`: the new mode, and the vertical speed is zeroed. */
  function SwitchMode(w: World, m: Mode): (r: World)
    ensures r.mode == m && r.body.vy == 0.0
    ensures r.body.y == w.body.y && r.body.grounded == w.body.grounded
    ensures r.gravity == w.gravity && r.gameGrounded == w.gameGrounded
  {
    w.(mode := m, body := w.body.(vy := 0.0))
  }

  /** `setGravity`: only a change of sign has an effect; it zeroes the speed and
      clears the game object's (not the player's) grounded flag. */
  function SetGravity(w: World, s: Gravity): (r: World)
    ensures r.gravity == s && r.mode == w.mode
    ensures r.body.y == w.body.y && r.body.grounded == w.body.grounded
    ensures w.gravity == s ==> r == w
    ensures w.gravity != s ==> r.body.vy == 0.0 && !r.gameGrounded
  {
    if w.gravity != s then w.(gravity := s, body := w.body.(vy := 0.0), gameGrounded := false)
    else w
  }

  /** The landing test for a landable obstacle. The previous position is
      approximated by y - vy; the player must come from the gravity side (with
      15 units of tolerance) and move towards the obstacle or not at all. */
  predicate CanLand(w: World, o: Obstacle)
  {
    var prevY := w.body.y - w.body.vy;
    if w.gravity == 1 then prevY + PlayerHeight <= o.y + 15.0 && w.body.vy >= 0.0
    else prevY >= o.y + o.height - 15.0 && w.body.vy <= 0.0
  }

  /** The result of resolving one contact. */
  datatype Outcome = Outcome(world: World, obstacle: Obstacle, events: seq<Event>)

  /** The collision dispatch for an obstacle that overlaps the player. */
  function Collide(w: World, o: Obstacle): (r: Outcome)
    // Portals: the mode/gravity table, and the portal is spent.
    ensures o.kind == PortalFly ==> r.world.mode == Ship && r.world.gravity == w.gravity
    ensures o.kind == PortalGravity ==> r.world.mode == Cube && r.world.gravity == -1
    ensures o.kind == PortalNormal ==> r.world.mode == Cube && r.world.gravity == 1
    ensures o.kind.IsPortal() ==> r.world.body.vy == 0.0 && r.world.body.y == w.body.y &&
                                  r.obstacle == o.(hit := true) && r.events == []
    // Hazards: always a miss, and the obstacle is marked so that it never collides again.
    ensures o.kind.IsHazard() ==> r.world == w && r.obstacle == o.(hit := true) && r.events == [Miss]
    // Landable kinds: a landing snaps the player onto the near face...
    ensures o.kind.IsLandable() && CanLand(w, o) ==>
              r.obstacle == o && r.events == [] &&
              r.world == w.(body := Body(if w.gravity == 1 then o.y - PlayerHeight else o.y + o.height, 0.0, true))
    // ...and anything else is a miss that leaves the obstacle unmarked.
    ensures o.kind.IsLandable() && !CanLand(w, o) ==>
              r.world == w && r.obstacle == o && r.events == [Miss]
    // Only portals change the mode or the gravity.
    ensures !o.kind.IsPortal() ==> r.world.mode == w.mode && r.world.gravity == w.gravity
  {
    match o.kind
    case PortalFly => Outcome(SwitchMode(w, Ship), o.(hit := true), [])
    case PortalGravity => Outcome(SetGravity(SwitchMode(w, Cube), -1), o.(hit := true), [])
    case PortalNormal => Outcome(SetGravity(SwitchMode(w, Cube), 1), o.(hit := true), [])
    case Platform | Floating =>
      if CanLand(w, o) then
        var landedY := if w.gravity == 1 then o.y - PlayerHeight else o.y + o.height;
        Outcome(w.(body := Body(landedY, 0.0, true)), o, [])
      else
        Outcome(w, o, [Miss])
    case Normal | Spike | FloorSpike | CeilingSpike | Tall => Outcome(w, o.(hit := true), [Miss])
  }

  /** The test of the obstacle loop: only obstacles neither hit nor passed that
      overlap the player are dispatched. */
  predicate Touches(w: World, o: Obstacle)
  {
    !o.hit && !o.passed && Overlaps(PlayerRect(w), o.Bounds())
  }

  /** The result of one iteration of the obstacle loop. */
  datatype Step = Step(world: World, obstacle: Obstacle, kept: bool, events: seq<Event>)

  /** The number of reward calls in a list of events. */
  function Rewards(events: seq<Event>): (n: nat)
    ensures n <= |events|
  {
    if events == [] then 0
    else Rewards(events[..|events| - 1]) + (if events[|events| - 1].Reward? then 1 else 0)
  }

  lemma {:induction false} RewardsAppend(a: seq<Event>, b: seq<Event>)
    ensures Rewards(a + b) == Rewards(a) + Rewards(b)
    decreases |b|
  {
    if b == [] {
      assert a + b == a;
    } else {
      assert (a + b)[..|a + b| - 1] == a + b[..|b| - 1];
      RewardsAppend(a, b[..|b| - 1]);
    }
  }

  /** The collision check of the loop: dispatch only on a live contact. */
  function Contact(w: World, o: Obstacle): (r: Outcome)
    // A contact changes only the hit flag, and raises at most a miss.
    ensures r.obstacle == o.(hit := r.obstacle.hit)
    ensures o.hit ==> r.obstacle.hit
    ensures r.events == [] || r.events == [Miss]
    ensures !Touches(w, o) ==> r == Outcome(w, o, [])
    // ...and every live contact is resolved by the dispatch.
    ensures Touches(w, o) ==> r == Collide(w, o)
    ensures !o.kind.IsPortal() ==> r.world.mode == w.mode && r.world.gravity == w.gravity
  {
    if Touches(w, o) then Collide(w, o) else Outcome(w, o, [])
  }

  /** The reward handling of the loop body: an obstacle whose right edge has
      gone past the player is marked passed and, unless it was hit or is a
      portal, its reward is requested. */
  function Pass(o: Obstacle): (Obstacle, seq<Event>)
  {
    if !o.passed && o.x + o.width < PlayerX then
      var done := o.(passed := true);
      (done, if !done.hit && !done.kind.IsPortal() then [Reward(RewardAmount(done))] else [])
    else
      (o, [])
  }

  /** One iteration of the obstacle loop: scroll, resolve a contact, decide
      removal, and pay the reward when the obstacle has just been passed. */
  function StepObstacle(w: World, o: Obstacle): (s: Step)
    // Every obstacle scrolls, hit or not; nothing but the two flags changes.
    ensures s.obstacle == o.(x := o.x - GameSpeed, passed := s.obstacle.passed, hit := s.obstacle.hit)
    // Removal happens once the right edge is more than 100 units off-screen.
    ensures s.kept <==> s.obstacle.x + s.obstacle.width >= RemovalEdge
    // The flags only ever go from false to true.
    ensures o.passed ==> s.obstacle.passed
    ensures o.hit ==> s.obstacle.hit
    ensures s.obstacle.passed <==> o.passed || o.x - GameSpeed + o.width < PlayerX
    // The world and the hit flag are those of the contact check on the scrolled obstacle.
    ensures var c := Contact(w, o.(x := o.x - GameSpeed));
            s.world == c.world && (s.obstacle.hit <==> c.obstacle.hit)
    // A hit or passed obstacle is inert: no contact, no miss.
    ensures o.hit || o.passed ==> s.world == w && Miss !in s.events
    // Only a portal changes the mode or the gravity.
    ensures !o.kind.IsPortal() ==> s.world.mode == w.mode && s.world.gravity == w.gravity
  {
    var c := Contact(w, o.(x := o.x - GameSpeed));
    var (done, pay) := Pass(c.obstacle);
    Step(c.world, done, !(done.x + done.width < RemovalEdge), c.events + pay)
  }

  /** Counted in rewards: a step pays at most once, never for an obstacle
      already passed or hit or for a portal, and exactly once when it passes a
      live, non-portal obstacle; the payment comes after any miss and carries
      the obstacle's reward. */
  lemma StepRewards(w: World, o: Obstacle)
    ensures var s := StepObstacle(w, o);
      var pays := !o.passed && s.obstacle.passed && !s.obstacle.hit && !o.kind.IsPortal();
      && s.events == Contact(w, o.(x := o.x - GameSpeed)).events +
                     (if pays then [Reward(RewardAmount(o))] else [])
      && Rewards(s.events) == (if pays then 1 else 0)
      && (o.hit || o.passed || o.kind.IsPortal() ==> Rewards(s.events) == 0)
  {
    var c := Contact(w, o.(x := o.x - GameSpeed));
    var (done, pay) := Pass(c.obstacle);
    assert RewardAmount(done) == RewardAmount(o);
    RewardsAppend(c.events, pay);
    assert Rewards(c.events) == 0 by {
      if c.events == [Miss] {
        assert c.events[..0] == [];
      }
    }
    assert Rewards(pay) == |pay| by {
      if pay != [] {
        assert pay[..0] == [];
      }
    }
  }

  /** Every obstacle that has a value is worth at least 1. */
  predicate ValuesOk(obs: seq<Obstacle>)
  {
    forall k :: 0 <= k < |obs| ==> obs[k].value.None? || obs[k].value.value >= 1
  }

  /** Every reward requested is at least 1. */
  predicate RewardsPositive(events: seq<Event>)
  {
    forall k :: 0 <= k < |events| ==> events[k].Reward? ==> events[k].amount >= 1
  }

  /** The result of the loop over the obstacle list. */
  datatype Sweep = Sweep(world: World, kept: seq<Obstacle>, events: seq<Event>)

  /** The loop `for (i = length - 1; i >= 0; i--)` after it has handled the
      indices from the end down to i: the world it leaves, the surviving
      obstacles from index i on (in list order) and the events in the order
      they happened. */
  function Scan(w: World, obs: seq<Obstacle>, i: nat): (r: Sweep)
    requires i <= |obs|
    ensures |r.kept| <= |obs| - i
    ensures forall k :: 0 <= k < |r.kept| ==> r.kept[k].x + r.kept[k].width >= RemovalEdge
    decreases |obs| - i
  {
    if i == |obs| then Sweep(w, [], [])
    else
      var rest := Scan(w, obs, i + 1);
      var s := StepObstacle(rest.world, obs[i]);
      Sweep(s.world, (if s.kept then [s.obstacle] else []) + rest.kept, rest.events + s.events)
  }

  /** A sweep keeps every obstacle's value, so the rewards it requests are at
      least 1 as long as the values on the list are. */
  lemma {:induction false} ScanRewardsPositive(w: World, obs: seq<Obstacle>, i: nat)
    requires i <= |obs|
    requires ValuesOk(obs[i..])
    ensures ValuesOk(Scan(w, obs, i).kept)
    ensures RewardsPositive(Scan(w, obs, i).events)
    decreases |obs| - i
  {
    if i < |obs| {
      assert obs[i + 1..] == obs[i..][1..];
      assert obs[i] == obs[i..][0];
      ScanRewardsPositive(w, obs, i + 1);
      var rest := Scan(w, obs, i + 1);
      StepRewardsPositive(rest.world, obs[i]);
      var s := StepObstacle(rest.world, obs[i]);
      ValuesAppend(if s.kept then [s.obstacle] else [], rest.kept);
      PositiveAppend(rest.events, s.events);
    }
  }

  lemma StepRewardsPositive(w: World, o: Obstacle)
    requires o.value.None? || o.value.value >= 1
    ensures ValuesOk([StepObstacle(w, o).obstacle])
    ensures RewardsPositive(StepObstacle(w, o).events)
  {
    StepRewards(w, o);
  }

  lemma ValuesAppend(a: seq<Obstacle>, b: seq<Obstacle>)
    requires ValuesOk(a) && ValuesOk(b)
    ensures ValuesOk(a + b)
  {
    assert forall k :: |a| <= k < |a + b| ==> (a + b)[k] == b[k - |a|];
  }

  lemma PositiveAppend(a: seq<Event>, b: seq<Event>)
    requires RewardsPositive(a) && RewardsPositive(b)
    ensures RewardsPositive(a + b)
  {
    assert forall k :: |a| <= k < |a + b| ==> (a + b)[k] == b[k - |a|];
  }

  /** The mode and gravity change only by touching a portal: a sweep over a
      list without portals leaves them as they were. */
  lemma {:induction false} NoPortalKeepsState(w: World, obs: seq<Obstacle>, i: nat)
    requires i <= |obs|
    requires forall k :: i <= k < |obs| ==> !obs[k].kind.IsPortal()
    ensures Scan(w, obs, i).world.mode == w.mode
    ensures Scan(w, obs, i).world.gravity == w.gravity
    decreases |obs| - i
  {
    if i < |obs| {
      NoPortalKeepsState(w, obs, i + 1);
    }
  }

  /** `steps` holds exactly one `StepObstacle` per listed obstacle, in list
      order, each taken in the world the step of the next obstacle left; the
      last obstacle meets `w`. This is the backwards loop's order of work. */
  predicate Threaded(w: World, obs: seq<Obstacle>, steps: seq<Step>)
  {
    && |steps| == |obs|
    && (forall k :: 0 <= k < |obs| ==> steps[k] == StepObstacle(WorldBefore(w, steps, k), obs[k]))
  }

  /** The world the step at index k meets: the one the step after it left. */
  function WorldBefore(w: World, steps: seq<Step>, k: nat): World
  {
    if k + 1 < |steps| then steps[k + 1].world else w
  }

  /** The steps of the list from index i on, built from its end. */
  function StepsFrom(w: World, obs: seq<Obstacle>, i: nat): (steps: seq<Step>)
    requires i <= |obs|
    ensures |steps| == |obs| - i
    decreases |obs| - i
  {
    if i == |obs| then []
    else
      var tail := StepsFrom(w, obs, i + 1);
      [StepObstacle(if tail == [] then w else tail[0].world, obs[i])] + tail
  }

  lemma {:induction false} StepsFromThreaded(w: World, obs: seq<Obstacle>, i: nat)
    requires i <= |obs|
    ensures Threaded(w, obs[i..], StepsFrom(w, obs, i))
    decreases |obs| - i
  {
    if i < |obs| {
      var tail := StepsFrom(w, obs, i + 1);
      StepsFromThreaded(w, obs, i + 1);
      var steps := StepsFrom(w, obs, i);
      forall k | 0 <= k < |obs| - i
        ensures steps[k] == StepObstacle(WorldBefore(w, steps, k), obs[i..][k])
      {
        if k == 0 {
          assert WorldBefore(w, steps, 0) == (if tail == [] then w else tail[0].world);
          assert obs[i..][0] == obs[i];
        } else {
          assert steps[k] == tail[k - 1];
          assert tail[k - 1] == StepObstacle(WorldBefore(w, tail, k - 1), obs[i + 1..][k - 1]);
          assert obs[i..][k] == obs[i + 1..][k - 1];
          assert WorldBefore(w, steps, k) == WorldBefore(w, tail, k - 1);
        }
      }
    }
  }

  /** There is only one way to thread the steps through a list. */
  lemma ThreadedUnique(w: World, obs: seq<Obstacle>, a: seq<Step>, b: seq<Step>)
    requires Threaded(w, obs, a) && Threaded(w, obs, b)
    ensures a == b
  {
    var k := |obs|;
    while k > 0
      invariant 0 <= k <= |obs|
      invariant forall j :: k <= j < |obs| ==> a[j] == b[j]
    {
      k := k - 1;
      assert WorldBefore(w, a, k) == WorldBefore(w, b, k);
      assert a[k] == StepObstacle(WorldBefore(w, a, k), obs[k]);
      assert b[k] == StepObstacle(WorldBefore(w, b, k), obs[k]);
    }
  }

  /** Every step of a threaded run pays at most once. */
  lemma StepsPayAtMostOnce(w: World, obs: seq<Obstacle>, steps: seq<Step>)
    requires Threaded(w, obs, steps)
    ensures forall k :: 0 <= k < |steps| ==> Rewards(steps[k].events) <= 1
  {
    forall k | 0 <= k < |steps|
      ensures Rewards(steps[k].events) <= 1
    {
      assert steps[k] == StepObstacle(WorldBefore(w, steps, k), obs[k]);
      StepRewards(WorldBefore(w, steps, k), obs[k]);
    }
  }

  /** The obstacles a run of steps keeps, in list order. */
  function KeptOf(steps: seq<Step>): seq<Obstacle>
  {
    if steps == [] then [] else (if steps[0].kept then [steps[0].obstacle] else []) + KeptOf(steps[1..])
  }

  /** The events of a run of steps in the order they happen: from the last
      obstacle of the list to the first. */
  function EventsOf(steps: seq<Step>): seq<Event>
  {
    if steps == [] then [] else EventsOf(steps[1..]) + steps[0].events
  }

  /** The rewards paid by each step, added up. */
  function RewardsOf(steps: seq<Step>): (n: nat)
    ensures (forall k :: 0 <= k < |steps| ==> Rewards(steps[k].events) <= 1) ==> n <= |steps|
  {
    if steps == [] then 0 else Rewards(steps[0].events) + RewardsOf(steps[1..])
  }

  /** A run of steps pays what its steps pay, added up. */
  lemma {:induction false} EventsOfRewards(steps: seq<Step>)
    ensures Rewards(EventsOf(steps)) == RewardsOf(steps)
  {
    if steps != [] {
      EventsOfRewards(steps[1..]);
      RewardsAppend(EventsOf(steps[1..]), steps[0].events);
    }
  }

  /** The sweep from index i is the run `StepsFrom` of the rest of the list:
      it leaves the world of the first step, its list is what the steps keep,
      and its events are theirs in order. */
  lemma {:induction false} ScanIsSteps(w: World, obs: seq<Obstacle>, i: nat)
    requires i <= |obs|
    ensures var r := Scan(w, obs, i);
      var steps := StepsFrom(w, obs, i);
      && r.world == (if i == |obs| then w else steps[0].world)
      && r.kept == KeptOf(steps)
      && r.events == EventsOf(steps)
    decreases |obs| - i
  {
    if i < |obs| {
      ScanIsSteps(w, obs, i + 1);
      var tail := StepsFrom(w, obs, i + 1);
      var steps := StepsFrom(w, obs, i);
      assert steps[1..] == tail;
    }
  }

  /** The sweep visits every obstacle exactly once: it is the one threaded run
      of one `StepObstacle` per obstacle, its list is what those steps keep, its
      events are theirs in order, and it pays the sum of what each step pays,
      which is at most one per obstacle. */
  lemma ScanStepsEachOnce(w: World, obs: seq<Obstacle>, i: nat)
    requires i <= |obs|
    ensures var r := Scan(w, obs, i);
      var steps := StepsFrom(w, obs, i);
      && Threaded(w, obs[i..], steps)
      && r.world == (if i == |obs| then w else steps[0].world)
      && r.kept == KeptOf(steps)
      && r.events == EventsOf(steps)
      && Rewards(r.events) == RewardsOf(steps)
      && (forall k :: 0 <= k < |steps| ==> Rewards(steps[k].events) <= 1)
      && Rewards(r.events) <= |obs| - i
  {
    StepsFromThreaded(w, obs, i);
    StepsPayAtMostOnce(w, obs[i..], StepsFrom(w, obs, i));
    ScanIsSteps(w, obs, i);
    EventsOfRewards(StepsFrom(w, obs, i));
  }

  /** The state carried from frame to frame. */
  datatype Frame = Frame(world: World, timer: nat, obstacles: seq<Obstacle>)

  /** The spawn interval: 15 frames in ship mode, `obstacleInterval` (120) in cube mode. */
  function SpawnInterval(mode: Mode): nat
  {
    if mode == Ship then ShipSpawnInterval else CubeSpawnInterval
  }

  /** The spawn timer: incremented every frame; when it exceeds the interval an
      obstacle spawns and the timer restarts at 0. */
  function TimerStep(timer: nat, interval: nat): (r: (nat, bool))
    ensures r.1 <==> timer + 1 > interval
    ensures r.0 == if r.1 then 0 else timer + 1
    ensures r.0 <= interval
  {
    var t := timer + 1;
    if t > interval then (0, true) else (t, false)
  }

  /** The timer after k frames at a fixed interval, with the number of spawns. */
  function RunTimer(timer: nat, interval: nat, k: nat): (r: (nat, nat))
  {
    if k == 0 then (timer, 0)
    else
      var prev := RunTimer(timer, interval, k - 1);
      var next := TimerStep(prev.0, interval);
      (next.0, prev.1 + if next.1 then 1 else 0)
  }

  /** Spawns come every interval + 1 frames: from a fresh timer, the first
      interval frames spawn nothing and count up, and the next one spawns and
      restarts the timer. */
  lemma {:induction false} SpawnPeriod(interval: nat, k: nat)
    requires k <= interval
    ensures RunTimer(0, interval, k) == (k, 0)
    ensures RunTimer(0, interval, interval + 1) == (0, 1)
  {
    CountUp(interval, k);
    CountUp(interval, interval);
  }

  lemma {:induction false} CountUp(interval: nat, k: nat)
    requires k <= interval
    ensures RunTimer(0, interval, k) == (k, 0)
  {
    if k > 0 {
      CountUp(interval, k - 1);
    }
  }

  /** The result of one frame: the new state and the events, in order. */
  datatype TickResult = TickResult(frame: Frame, events: seq<Event>)

  /** `update`: physics and the world-bound clamp, the spawn timer (spawning
      with the mode and gravity of this frame), then the backwards sweep over the
      obstacle list. */
  function Tick(f: Frame, groundY: real, canvasWidth: real, d: Draws): TickResult
  {
    var w := f.world.(body := Fall(f.world.mode, f.world.gravity, groundY, f.world.body));
    var (timer, spawn) := TimerStep(f.timer, SpawnInterval(w.mode));
    var obs := if spawn then f.obstacles + [Spawn(w.mode, w.gravity, groundY, canvasWidth, d)]
               else f.obstacles;
    var sweep := Scan(w, obs, 0);
    TickResult(Frame(sweep.world, timer, sweep.kept), sweep.events)
  }

  /** What one frame guarantees: the timer restarts exactly when it passes the
      interval of the current mode, no obstacle left is more than 100 units
      off-screen, and the list grows by at most the one spawned obstacle.
      (`TickWithoutPortalKeepsMode` states when the mode and gravity stay put.) */
  lemma TickFacts(f: Frame, groundY: real, canvasWidth: real, d: Draws)
    ensures var r := Tick(f, groundY, canvasWidth, d);
      && r.frame.timer == (if f.timer + 1 > SpawnInterval(f.world.mode) then 0 else f.timer + 1)
      && |r.frame.obstacles| <= |f.obstacles| + 1
      && (forall k :: 0 <= k < |r.frame.obstacles| ==>
            r.frame.obstacles[k].x + r.frame.obstacles[k].width >= RemovalEdge)
  {
  }

  /** A frame without a portal on the list, and without a portal spawning, keeps
      the mode and gravity. */
  lemma TickWithoutPortalKeepsMode(f: Frame, groundY: real, canvasWidth: real, d: Draws)
    requires forall k :: 0 <= k < |f.obstacles| ==> !f.obstacles[k].kind.IsPortal()
    requires d.d0 >= 0.15
    ensures Tick(f, groundY, canvasWidth, d).frame.world.mode == f.world.mode
    ensures Tick(f, groundY, canvasWidth, d).frame.world.gravity == f.world.gravity
  {
    var w := f.world.(body := Fall(f.world.mode, f.world.gravity, groundY, f.world.body));
    var (timer, spawn) := TimerStep(f.timer, SpawnInterval(w.mode));
    var obs := if spawn then f.obstacles + [Spawn(w.mode, w.gravity, groundY, canvasWidth, d)]
               else f.obstacles;
    SpawnEntersUnresolved(w.mode, w.gravity, groundY, canvasWidth, d);
    NoPortalKeepsState(w, obs, 0);
  }

  /** One frame takes exactly one `StepObstacle` for every obstacle on the list
      (the spawned one included), threaded through the fallen world from the
      end of the list: the next frame's list is what those steps keep, the
      frame's events are theirs in order, and the frame pays the sum of what
      each obstacle pays, at most one each. So across frames an obstacle lives
      the life `Follow` describes. */
  lemma TickStepsEachObstacleOnce(f: Frame, groundY: real, canvasWidth: real, d: Draws)
    ensures var w := f.world.(body := Fall(f.world.mode, f.world.gravity, groundY, f.world.body));
      var spawn := f.timer + 1 > SpawnInterval(w.mode);
      var obs := if spawn then f.obstacles + [Spawn(w.mode, w.gravity, groundY, canvasWidth, d)]
                 else f.obstacles;
      var steps := StepsFrom(w, obs, 0);
      var r := Tick(f, groundY, canvasWidth, d);
      && Threaded(w, obs, steps)
      && r.frame.world == (if obs == [] then w else steps[0].world)
      && r.frame.obstacles == KeptOf(steps)
      && r.events == EventsOf(steps)
      && Rewards(r.events) == RewardsOf(steps)
      && (forall k :: 0 <= k < |obs| ==> Rewards(steps[k].events) <= 1)
      && Rewards(r.events) <= |obs|
  {
    var w := f.world.(body := Fall(f.world.mode, f.world.gravity, groundY, f.world.body));
    var (timer, spawn) := TimerStep(f.timer, SpawnInterval(w.mode));
    var obs := if spawn then f.obstacles + [Spawn(w.mode, w.gravity, groundY, canvasWidth, d)]
               else f.obstacles;
    assert obs[0..] == obs;
    ScanStepsEachOnce(w, obs, 0);
  }

  /** One obstacle followed through a run of frames, each met with whatever
      world the rest of that frame produced: the obstacle at the end and the
      number of rewards it paid. */
  function Follow(worlds: seq<World>, o: Obstacle): (r: (Obstacle, nat))
  {
    if worlds == [] then (o, 0)
    else
      var prev := Follow(worlds[..|worlds| - 1], o);
      var s := StepObstacle(worlds[|worlds| - 1], prev.0);
      (s.obstacle, prev.1 + Rewards(s.events))
  }

  /** Reward exactly once. Over any run of frames an obstacle pays at most once;
      it never pays if it was already passed or hit, or is a portal; and one
      that was not yet passed, ends the run passed and was never hit pays
      exactly once. It scrolls by 5 units every frame throughout. */
  lemma {:induction false} RewardExactlyOnce(worlds: seq<World>, o: Obstacle)
    ensures var (last, paid) := Follow(worlds, o);
      && paid <= 1
      && (o.passed || o.hit || o.kind.IsPortal() ==> paid == 0)
      && (paid == 1 ==> !o.passed && last.passed && !last.hit)
      && (!o.passed && last.passed && !last.hit && !o.kind.IsPortal() ==> paid == 1)
      && (o.passed ==> last.passed) && (o.hit ==> last.hit)
      && last.kind == o.kind && last.value == o.value
      && last.x == o.x - GameSpeed * |worlds| as real
  {
    if worlds != [] {
      var init := worlds[..|worlds| - 1];
      RewardExactlyOnce(init, o);
      var prev := Follow(init, o);
      var s := StepObstacle(worlds[|worlds| - 1], prev.0);
      StepRewards(worlds[|worlds| - 1], prev.0);
      assert Follow(worlds, o) == (s.obstacle, prev.1 + Rewards(s.events));
    }
  }
}
