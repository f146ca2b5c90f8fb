/**
 * The boat minigame of scenes/boat_scene.py. Each frame the player's breath
 * lifts the boat, gravity and a pull toward a wavy path bring it down, it
 * moves right faster while the player blows, collects the coins it touches
 * and completes three phases of coin and distance goals.
 *
 * `math.sin` and `random.randint` become parameters: `sine(d)` stands for
 * `math.sin(d * 0.01)` and `jitter(k)` for the k-th `random.randint(-40, 40)`.
 */
module Boat {
  import opened Maybe
  import opened Events
  import opened Numeric
  import opened Input
  import opened Profiles
  import opened Scenes

  const ScreenWidth: int := 1280
  const ScreenHeight: int := 720
  const FinishLineX: int := ScreenWidth + 300
  const StartX: real := 100.0
  const StartY: real := (ScreenHeight - 150) as real
  const MinY: real := 50.0
  const MaxY: real := (ScreenHeight - 150) as real

  const Gravity: real := 0.8
  const Damping: real := 0.95
  const PathPull: real := 0.02
  const LiftGain: real := 10.0
  const LiftDecay: real := 1.5
  const LiftThreshold: real := 0.15
  const PathFollowThreshold: real := 0.1
  const SprintThreshold: real := 0.25
  const SprintStep: real := 2.5
  const DriftStep: real := 0.8
  const CalibrationFloor: real := 0.1

  const PathStartX: int := 100
  const PathStep: int := 50
  const PathLength: nat := 30
  const PathBaseY: real := (ScreenHeight - 200) as real
  const PathAmplitude: real := 100.0

  const CoinStartX: int := 150
  const CoinEndX: int := FinishLineX - 50
  const CoinStep: int := 60
  const CoinCount: nat := 23
  const CoinAmplitude: real := 80.0
  const CoinRadius: int := 15

  const BoatWidth: int := 100
  const BoatHeight: int := 80
  const LastPhase: int := 3

  // ---------------------------------------------------------------------
  // Course generation

  datatype PathPoint = PathPoint(x: int, y: real)

  /** The height of the path point at `x`, kept 50 inside the boat's limits. */
  function PathHeight(sine: int -> real, x: int): real
  {
    Clamp(PathBaseY + sine(x - PathStartX) * PathAmplitude, MinY + 50.0, MaxY - 50.0)
  }

  /** `_generate_path`: one point every 50 from x = 100 up to the finish line. */
  method GeneratePath(sine: int -> real) returns (path: seq<PathPoint>)
    ensures |path| == PathLength
    ensures forall i | 0 <= i < |path| ::
      path[i] == PathPoint(PathStartX + PathStep * i, PathHeight(sine, PathStartX + PathStep * i))
    ensures forall i | 0 <= i < |path| :: path[i].x < FinishLineX && MinY + 50.0 <= path[i].y <= MaxY - 50.0
  {
    path := [];
    var x := PathStartX;
    while x < FinishLineX
      invariant x == PathStartX + PathStep * |path| && |path| <= PathLength
      invariant forall i | 0 <= i < |path| ::
        path[i] == PathPoint(PathStartX + PathStep * i, PathHeight(sine, PathStartX + PathStep * i))
      invariant forall i | 0 <= i < |path| :: path[i].x < FinishLineX
      decreases FinishLineX - x
    {
      var y := PathBaseY + sine(x - PathStartX) * PathAmplitude;
      y := Clamp(y, MinY + 50.0, MaxY - 50.0);
      path := path + [PathPoint(x, y)];
      x := x + PathStep;
    }
  }

  datatype Coin = Coin(x: int, y: real, collected: bool)

  /** The height of the k-th coin, kept 20 inside the boat's limits. */
  function CoinHeight(sine: int -> real, jitter: nat -> int, k: nat): real
  {
    var x := CoinStartX + CoinStep * k;
    Clamp(PathBaseY + sine(x - CoinStartX) * CoinAmplitude + jitter(k) as real, MinY + 20.0, MaxY - 20.0)
  }

  /** `_generate_coins`: one uncollected coin every 60 from x = 150 to 50 before the finish line. */
  method GenerateCoins(sine: int -> real, jitter: nat -> int) returns (coins: seq<Coin>)
    ensures |coins| == CoinCount
    ensures forall k | 0 <= k < |coins| ::
      coins[k] == Coin(CoinStartX + CoinStep * k, CoinHeight(sine, jitter, k), false)
    ensures forall k | 0 <= k < |coins| :: coins[k].x < CoinEndX && MinY + 20.0 <= coins[k].y <= MaxY - 20.0
  {
    coins := [];
    var x := CoinStartX;
    while x < CoinEndX
      invariant x == CoinStartX + CoinStep * |coins| && |coins| <= CoinCount
      invariant forall k | 0 <= k < |coins| ::
        coins[k] == Coin(CoinStartX + CoinStep * k, CoinHeight(sine, jitter, k), false)
      invariant forall k | 0 <= k < |coins| :: coins[k].x < CoinEndX
      decreases CoinEndX - x
    {
      var y := PathBaseY + sine(x - CoinStartX) * CoinAmplitude + jitter(|coins|) as real;
      y := Clamp(y, MinY + 20.0, MaxY - 20.0);
      coins := coins + [Coin(x, y, false)];
      x := x + CoinStep;
    }
  }

  // ---------------------------------------------------------------------
  // Path following

  /** The first path point from `from` on whose x is at least `x`. */
  function FirstReachedFrom(path: seq<PathPoint>, x: real, from: nat): (r: Option<nat>)
    requires from <= |path|
    decreases |path| - from
    ensures r.Some? ==> from <= r.value < |path| && path[r.value].x as real >= x
    ensures r.Some? ==> forall j | from <= j < r.value :: (path[j].x as real) < x
    ensures r.None? ==> forall j | from <= j < |path| :: (path[j].x as real) < x
  {
    if from == |path| then None
    else if path[from].x as real >= x then Some(from)
    else FirstReachedFrom(path, x, from + 1)
  }

  /** The height the boat aims for and the path index recorded with it. */
  datatype Aim = Aim(y: real, index: nat)

  /**
   * `_get_target_y`: with the recorded index past the end, or with no
   * point ahead, the last point's height and the index unchanged;
   * otherwise the first point at or ahead of the boat, and its index.
   */
  function AimAt(path: seq<PathPoint>, index: nat, x: real): (a: Aim)
    requires |path| > 0
    ensures index < |path| ==> a.index < |path|
    ensures a.index != index ==> a.index < |path| && path[a.index].x as real >= x
    ensures a.y == path[|path| - 1].y || (a.index < |path| && a.y == path[a.index].y)
    ensures index < |path| && FirstReachedFrom(path, x, 0).Some? ==>
      a == Aim(path[FirstReachedFrom(path, x, 0).value].y, FirstReachedFrom(path, x, 0).value)
    ensures index >= |path| || FirstReachedFrom(path, x, 0).None? ==>
      a == Aim(path[|path| - 1].y, index)
  {
    if index >= |path| then Aim(path[|path| - 1].y, index)
    else match FirstReachedFrom(path, x, 0)
      case Some(i) => Aim(path[i].y, i)
      case None => Aim(path[|path| - 1].y, index)
  }

  /** On the generated path there is always a point ahead until the boat passes the last one. */
  lemma PointAheadUntilLast(path: seq<PathPoint>, x: real)
    requires |path| == PathLength
    requires forall i | 0 <= i < |path| :: path[i].x == PathStartX + PathStep * i
    requires x <= (PathStartX + PathStep * (PathLength - 1)) as real
    ensures FirstReachedFrom(path, x, 0).Some?
  {
    assert path[PathLength - 1].x as real >= x;
  }

  // ---------------------------------------------------------------------
  // Breath and physics

  /** `normalized_effort`: breath relative to the calibrated maximum, or 0 with no usable calibration. */
  function NormalizedEffort(breath: real, maxCalibrated: real): (e: real)
    ensures maxCalibrated > CalibrationFloor ==> e * maxCalibrated == breath
    ensures maxCalibrated <= CalibrationFloor ==> e == 0.0
  {
    if maxCalibrated > CalibrationFloor then breath / maxCalibrated else 0.0
  }

  /** `lift_force` after one frame: proportional to a strong effort, otherwise fading by 1.5. */
  function NextLift(effort: real, lift: real): (r: real)
    ensures r >= 0.0
    ensures effort > LiftThreshold ==> r == effort * LiftGain && r > LiftDecay
    ensures effort <= LiftThreshold ==> r == Max0(lift - LiftDecay)
  {
    if effort > LiftThreshold then effort * LiftGain else Max0(lift - LiftDecay)
  }

  /** The lift after a run of frames with these efforts, the last one last. */
  function LiftAfter(lift: real, efforts: seq<real>): real
  {
    if efforts == [] then lift else NextLift(efforts[|efforts| - 1], LiftAfter(lift, efforts[..|efforts| - 1]))
  }

  /** Without a strong effort the lift fades linearly to 0 and stays there. */
  lemma {:induction false} LiftFadesOut(lift: real, efforts: seq<real>)
    requires lift >= 0.0
    requires forall i | 0 <= i < |efforts| :: efforts[i] <= LiftThreshold
    ensures LiftAfter(lift, efforts) == Max0(lift - LiftDecay * |efforts| as real)
  {
    if efforts != [] {
      var init := efforts[..|efforts| - 1];
      assert forall i | 0 <= i < |init| :: init[i] == efforts[i];
      LiftFadesOut(lift, init);
    }
  }

  /** The boat's position and vertical speed. */
  datatype Motion = Motion(x: real, y: real, velocity: real)

  /** The vertical speed after lift, gravity, the pull toward the path and damping. */
  function NextVelocity(velocity: real, lift: real, effort: real, yDiff: real): (v: real)
    ensures effort >= PathFollowThreshold ==> v == (velocity - lift + Gravity) * Damping
    ensures effort < PathFollowThreshold && yDiff > 0.0 ==> v > (velocity - lift + Gravity) * Damping
    ensures effort < PathFollowThreshold && yDiff < 0.0 ==> v < (velocity - lift + Gravity) * Damping
  {
    (velocity - lift + Gravity + (if effort < PathFollowThreshold then yDiff * PathPull else 0.0)) * Damping
  }

  /**
   * `_update_boat_physics`: y stays within the limits, and a move that would
   * leave them stops at the limit with the speed cut to 0; x always advances,
   * by 2.5 exactly when the effort exceeds 0.25.
   */
  function PhysicsStep(m: Motion, lift: real, effort: real, targetY: real): (r: Motion)
    ensures MinY <= r.y <= MaxY
    ensures var v := NextVelocity(m.velocity, lift, effort, targetY - m.y);
      && (MinY <= m.y + v <= MaxY ==> r.y == m.y + v && r.velocity == v)
      && (r.y != m.y + v ==> r.velocity == 0.0)
      && (m.y + v < MinY ==> r.y == MinY)
      && (m.y + v > MaxY ==> r.y == MaxY)
    ensures r.x > m.x
    ensures r.x - m.x == SprintStep || r.x - m.x == DriftStep
    ensures r.x - m.x == SprintStep <==> effort > SprintThreshold
  {
    var v := NextVelocity(m.velocity, lift, effort, targetY - m.y);
    var y := m.y + v;
    var x := m.x + (if effort > SprintThreshold then SprintStep else DriftStep);
    if y < MinY then Motion(x, MinY, 0.0)
    else if y > MaxY then Motion(x, MaxY, 0.0)
    else Motion(x, y, v)
  }

  // ---------------------------------------------------------------------
  // Coins

  /** An integer rectangle: left, top, width, height. */
  datatype Rect = Rect(left: int, top: int, width: int, height: int)

  /** `colliderect`: the interiors overlap; touching edges do not count. */
  predicate Overlaps(a: Rect, b: Rect)
  {
    a.left < b.left + b.width && b.left < a.left + a.width
    && a.top < b.top + b.height && b.top < a.top + a.height
  }

  function BoatRect(x: real, y: real): Rect
  {
    Rect(Trunc(x), Trunc(y), BoatWidth, BoatHeight)
  }

  function CoinRect(c: Coin): Rect
  {
    Rect(c.x - CoinRadius, Trunc(c.y - CoinRadius as real), 2 * CoinRadius, 2 * CoinRadius)
  }

  /** The coin is still out and the boat touches it. */
  predicate Catches(boat: Rect, c: Coin)
  {
    !c.collected && Overlaps(boat, CoinRect(c))
  }

  /** One coin after the boat passed: collected once caught, and never uncollected. */
  function Collect(c: Coin, boat: Rect): (r: Coin)
    ensures r.x == c.x && r.y == c.y
    ensures r.collected <==> c.collected || Overlaps(boat, CoinRect(c))
  {
    if Catches(boat, c) then c.(collected := true) else c
  }

  /** Every coin after one pass of `_check_coin_collision`. */
  function CollectAll(coins: seq<Coin>, boat: Rect): (r: seq<Coin>)
    ensures |r| == |coins|
  {
    if coins == [] then [] else CollectAll(coins[..|coins| - 1], boat) + [Collect(coins[|coins| - 1], boat)]
  }

  /** The number of collected coins. */
  function CollectedCount(coins: seq<Coin>): (n: nat)
    ensures n <= |coins|
  {
    if coins == [] then 0 else CollectedCount(coins[..|coins| - 1]) + (if coins[|coins| - 1].collected then 1 else 0)
  }

  /** The number of coins the boat catches in one pass. */
  function Newly(coins: seq<Coin>, boat: Rect): nat
  {
    if coins == [] then 0 else Newly(coins[..|coins| - 1], boat) + (if Catches(boat, coins[|coins| - 1]) then 1 else 0)
  }

  /** A pass changes each coin on its own, and only its flag. */
  lemma {:induction false} CollectAllPointwise(coins: seq<Coin>, boat: Rect)
    ensures |CollectAll(coins, boat)| == |coins|
    ensures forall i | 0 <= i < |coins| :: CollectAll(coins, boat)[i] == Collect(coins[i], boat)
  {
    if coins != [] {
      var init := coins[..|coins| - 1];
      CollectAllPointwise(init, boat);
      forall i | 0 <= i < |coins| - 1
        ensures CollectAll(coins, boat)[i] == Collect(coins[i], boat)
      {
        assert CollectAll(coins, boat)[i] == CollectAll(init, boat)[i];
        assert init[i] == coins[i];
      }
    }
  }

  /** The collected count rises by exactly the number of coins caught. */
  lemma {:induction false} CollectAllCount(coins: seq<Coin>, boat: Rect)
    ensures CollectedCount(CollectAll(coins, boat)) == CollectedCount(coins) + Newly(coins, boat)
  {
    if coins != [] {
      var init := coins[..|coins| - 1];
      CollectAllCount(init, boat);
      var after := CollectAll(coins, boat);
      assert after[..|after| - 1] == CollectAll(init, boat);
    }
  }

  /** A second pass from the same place catches nothing more. */
  lemma {:induction false} CollectAllCatchesOnce(coins: seq<Coin>, boat: Rect)
    ensures Newly(CollectAll(coins, boat), boat) == 0
  {
    if coins != [] {
      var init := coins[..|coins| - 1];
      CollectAllCatchesOnce(init, boat);
      var after := CollectAll(coins, boat);
      assert after[..|after| - 1] == CollectAll(init, boat);
    }
  }

  // ---------------------------------------------------------------------
  // Phases

  /** The coin and distance goal of a phase. */
  datatype Goal = Goal(coins: nat, distance: real)

  /** `phase_requirements`. */
  function Requirement(phase: int): (g: Option<Goal>)
    ensures g.Some? <==> 1 <= phase <= LastPhase
  {
    if phase == 1 then Some(Goal(4, 0.25))
    else if phase == 2 then Some(Goal(7, 0.55))
    else if phase == 3 then Some(Goal(10, 1.0))
    else None
  }

  /** Both goals of the phase hold, distance measured as x over the finish line. */
  predicate GoalMet(phase: int, coinsCollected: nat, x: real)
    ensures GoalMet(phase, coinsCollected, x) ==>
      1 <= phase <= LastPhase && coinsCollected >= Requirement(phase).value.coins
  {
    var g := Requirement(phase);
    g.Some? && coinsCollected >= g.value.coins && x / FinishLineX as real >= g.value.distance
  }

  datatype Progress = Progress(phase: int, completed: nat)

  /**
   * `_check_phase_completion`: a met goal counts one more completed phase
   * and unlocks the next, except in the last phase, which stays current
   * and counts again on every check while its goal holds.
   */
  function PhaseStep(p: Progress, coinsCollected: nat, x: real): (r: Progress)
    ensures 1 <= p.phase <= LastPhase ==> 1 <= r.phase <= LastPhase
    ensures r.phase == p.phase || (r.phase == p.phase + 1 && GoalMet(p.phase, coinsCollected, x))
    ensures r.completed == p.completed + (if GoalMet(p.phase, coinsCollected, x) then 1 else 0)
    ensures GoalMet(p.phase, coinsCollected, x) && p.phase < LastPhase ==> r.phase == p.phase + 1
  {
    if GoalMet(p.phase, coinsCollected, x) then
      Progress(if p.phase < LastPhase then p.phase + 1 else p.phase, p.completed + 1)
    else p
  }

  /** Progress after `k` checks at the same coin count and position. */
  function PhaseSteps(p: Progress, coinsCollected: nat, x: real, k: nat): Progress
  {
    if k == 0 then p else PhaseStep(PhaseSteps(p, coinsCollected, x, k - 1), coinsCollected, x)
  }

  /**
   * The completed-phase count is not bounded by the number of phases: while
   * the last goal holds, every check counts the last phase once more.
   */
  lemma {:induction false} CompletedPhasesExceedThree(n: nat, coinsCollected: nat, x: real, k: nat)
    requires GoalMet(LastPhase, coinsCollected, x)
    ensures PhaseSteps(Progress(LastPhase, n), coinsCollected, x, k) == Progress(LastPhase, n + k)
  {
    if k > 0 {
      CompletedPhasesExceedThree(n, coinsCollected, x, k - 1);
    }
  }

  /** Ten coins at the finish line meet the last goal, so three completed phases become four. */
  lemma FourthCompletionAtFinish()
    ensures PhaseStep(Progress(LastPhase, 3), 10, FinishLineX as real) == Progress(LastPhase, 4)
  {
    assert GoalMet(LastPhase, 10, FinishLineX as real);
  }

  /**
   * Each goal asks for more coins and more distance than the one before, so
   * meeting a later goal means the earlier ones are met too.
   */
  lemma GoalsGrow(phase: int, coinsCollected: nat, x: real)
    requires 1 <= phase < LastPhase
    ensures Requirement(phase).value.coins < Requirement(phase + 1).value.coins
    ensures Requirement(phase).value.distance < Requirement(phase + 1).value.distance
    ensures GoalMet(phase + 1, coinsCollected, x) ==> GoalMet(phase, coinsCollected, x)
  {
  }

  // ---------------------------------------------------------------------
  // The scene

  class BoatScene {
    const sceneManager: SceneManager
    const inputManager: InputManager
    const profile: Profile?
    /** The constructor got past its calibration check; otherwise it returned early. */
    const ready: bool
    var maxCalibratedBreath: real
    var boatPosX: real
    var boatPosY: real
    var boatVelocityY: real
    var liftForce: real
    var normalizedEffort: real
    var pathPoints: seq<PathPoint>
    var currentPathIndex: nat
    var coins: seq<Coin>
    var coinsCollected: nat
    var totalCoins: nat
    var currentPhase: int
    var phasesCompleted: nat

    ghost predicate Valid()
      reads this
    {
      ready ==>
        && |pathPoints| == PathLength && currentPathIndex < |pathPoints|
        && (forall i | 0 <= i < |pathPoints| :: pathPoints[i].x == PathStartX + PathStep * i)
        && MinY <= boatPosY <= MaxY && liftForce >= 0.0
        && totalCoins == |coins| && coinsCollected == CollectedCount(coins)
        && 1 <= currentPhase <= LastPhase
    }

    /**
     * `__init__`. Without a calibrated profile the source returns early (the
     * switch to the LoginScene is part of `SceneManager.Construct`); otherwise
     * the boat starts at (100, 570) at rest, on a fresh course, in phase 1.
     */
    constructor (sceneManager: SceneManager, inputManager: InputManager, sine: int -> real, jitter: nat -> int)
      ensures Valid()
      ensures this.sceneManager == sceneManager && this.inputManager == inputManager
      ensures profile == sceneManager.profiles.currentProfile
      ensures ready <==> profile != null && profile.isCalibrated
      ensures ready ==>
        && maxCalibratedBreath == profile.maxBreathRms
        && boatPosX == StartX && boatPosY == StartY && boatVelocityY == 0.0
        && liftForce == 0.0 && normalizedEffort == 0.0 && currentPathIndex == 0
        && (forall i | 0 <= i < |pathPoints| ::
              pathPoints[i] == PathPoint(PathStartX + PathStep * i, PathHeight(sine, PathStartX + PathStep * i)))
        && |coins| == CoinCount && totalCoins == CoinCount && coinsCollected == 0
        && (forall k | 0 <= k < |coins| :: coins[k] == Coin(CoinStartX + CoinStep * k, CoinHeight(sine, jitter, k), false))
        && currentPhase == 1 && phasesCompleted == 0
    {
      this.sceneManager := sceneManager;
      this.inputManager := inputManager;
      var p := sceneManager.profiles.currentProfile;
      profile := p;
      ready := p != null && p.isCalibrated;
      if p != null && p.isCalibrated {
        maxCalibratedBreath := p.maxBreathRms;
        boatPosX := StartX;
        boatPosY := StartY;
        var path := GeneratePath(sine);
        pathPoints := path;
        currentPathIndex := 0;
        boatVelocityY := 0.0;
        liftForce := 0.0;
        normalizedEffort := 0.0;
        var generated := GenerateCoins(sine, jitter);
        NoneCollected(generated);
        coins := generated;
        coinsCollected := 0;
        totalCoins := |generated|;
        currentPhase := 1;
        phasesCompleted := 0;
      }
    }

    /** `_get_target_y`. */
    method GetTargetY() returns (targetY: real)
      requires |pathPoints| > 0
      modifies this`currentPathIndex
      ensures Aim(targetY, currentPathIndex) == AimAt(pathPoints, old(currentPathIndex), boatPosX)
    {
      if currentPathIndex >= |pathPoints| {
        return pathPoints[|pathPoints| - 1].y;
      }
      var i := 0;
      while i < |pathPoints|
        invariant 0 <= i <= |pathPoints|
        invariant FirstReachedFrom(pathPoints, boatPosX, 0) == FirstReachedFrom(pathPoints, boatPosX, i)
      {
        if pathPoints[i].x as real >= boatPosX {
          currentPathIndex := i;
          return pathPoints[i].y;
        }
        i := i + 1;
      }
      return pathPoints[|pathPoints| - 1].y;
    }

    /** `_update_boat_physics`. */
    method UpdateBoatPhysics(targetY: real)
      modifies this`boatPosX, this`boatPosY, this`boatVelocityY
      ensures Motion(boatPosX, boatPosY, boatVelocityY) ==
        PhysicsStep(old(Motion(boatPosX, boatPosY, boatVelocityY)), liftForce, normalizedEffort, targetY)
    {
      var yDiff := targetY - boatPosY;
      boatVelocityY := boatVelocityY - liftForce;
      boatVelocityY := boatVelocityY + Gravity;
      if normalizedEffort < PathFollowThreshold {
        var pathForce := yDiff * PathPull;
        boatVelocityY := boatVelocityY + pathForce;
      }
      boatVelocityY := boatVelocityY * Damping;
      boatPosY := boatPosY + boatVelocityY;
      if boatPosY < MinY {
        boatPosY := MinY;
        boatVelocityY := 0.0;
      } else if boatPosY > MaxY {
        boatPosY := MaxY;
        boatVelocityY := 0.0;
      }
      if normalizedEffort > SprintThreshold {
        boatPosX := boatPosX + SprintStep;
      } else {
        boatPosX := boatPosX + DriftStep;
      }
    }

    /** `_check_coin_collision`: flags every coin the boat touches and counts it. */
    method CheckCoinCollision()
      modifies this`coins, this`coinsCollected
      ensures coins == CollectAll(old(coins), BoatRect(boatPosX, boatPosY))
      ensures coinsCollected == old(coinsCollected) + Newly(old(coins), BoatRect(boatPosX, boatPosY))
    {
      var boat := BoatRect(boatPosX, boatPosY);
      ghost var start := coins;
      var i := 0;
      while i < |coins|
        invariant 0 <= i <= |coins| == |start|
        invariant forall j | 0 <= j < i :: coins[j] == Collect(start[j], boat)
        invariant forall j | i <= j < |coins| :: coins[j] == start[j]
        invariant coinsCollected == old(coinsCollected) + Newly(start[..i], boat)
      {
        assert start[..i + 1][..i] == start[..i];
        if !coins[i].collected {
          if Overlaps(boat, CoinRect(coins[i])) {
            coins := coins[i := coins[i].(collected := true)];
            coinsCollected := coinsCollected + 1;
          }
        }
        i := i + 1;
      }
      assert start[..i] == start;
      CollectAllPointwise(start, boat);
    }

    /** `_check_phase_completion`. */
    method CheckPhaseCompletion()
      modifies this`currentPhase, this`phasesCompleted
      ensures Progress(currentPhase, phasesCompleted) ==
        PhaseStep(old(Progress(currentPhase, phasesCompleted)), coinsCollected, boatPosX)
    {
      var goal := Requirement(currentPhase);
      if goal.Some? {
        var progress := boatPosX / FinishLineX as real;
        if coinsCollected >= goal.value.coins && progress >= goal.value.distance {
          phasesCompleted := phasesCompleted + 1;
          if currentPhase < LastPhase {
            currentPhase := currentPhase + 1;
          }
        }
      }
    }

    /** Lines 159-179 of `update`: effort, target height, lift and the physics step. */
    method Steer()
      requires Valid() && ready
      modifies this`normalizedEffort, this`currentPathIndex, this`liftForce
      modifies this`boatPosX, this`boatPosY, this`boatVelocityY
      ensures Valid()
      ensures var aim := AimAt(pathPoints, old(currentPathIndex), old(boatPosX));
        && normalizedEffort == NormalizedEffort(inputManager.GetBreathIntensity(), maxCalibratedBreath)
        && liftForce == NextLift(normalizedEffort, old(liftForce))
        && currentPathIndex == aim.index
        && Motion(boatPosX, boatPosY, boatVelocityY) ==
             PhysicsStep(old(Motion(boatPosX, boatPosY, boatVelocityY)), liftForce, normalizedEffort, aim.y)
    {
      var breath := inputManager.GetBreathIntensity();
      if maxCalibratedBreath > CalibrationFloor {
        normalizedEffort := breath / maxCalibratedBreath;
      } else {
        normalizedEffort := 0.0;
      }
      var targetY := GetTargetY();
      if normalizedEffort > LiftThreshold {
        liftForce := normalizedEffort * LiftGain;
      } else {
        liftForce := Max0(liftForce - LiftDecay);
      }
      UpdateBoatPhysics(targetY);
    }

    /** Lines 182-185 of `update`: the coins the boat now touches, then the phase goals. */
    method Score()
      requires Valid() && ready
      modifies this`coins, this`coinsCollected, this`currentPhase, this`phasesCompleted
      ensures Valid()
      ensures coins == CollectAll(old(coins), BoatRect(boatPosX, boatPosY))
      ensures coinsCollected == old(coinsCollected) + Newly(old(coins), BoatRect(boatPosX, boatPosY))
      ensures Progress(currentPhase, phasesCompleted) ==
        PhaseStep(old(Progress(currentPhase, phasesCompleted)), coinsCollected, boatPosX)
    {
      ghost var before := coins;
      CheckCoinCollision();
      CollectAllPointwise(before, BoatRect(boatPosX, boatPosY));
      CollectAllCount(before, BoatRect(boatPosX, boatPosY));
      CheckPhaseCompletion();
    }

    /**
     * `update`: steering, then scoring, then the world map once the boat is
     * past the finish line. A scene whose constructor returned early has
     * none of this state; the source fails on it, which `failed` reports.
     */
    method Update() returns (failed: bool)
      requires Valid() && sceneManager.Valid()
      modifies this, sceneManager
      ensures Valid() && sceneManager.Valid()
      ensures failed <==> !ready
      ensures failed ==> unchanged(this, sceneManager)
      ensures !failed ==> pathPoints == old(pathPoints) && maxCalibratedBreath == old(maxCalibratedBreath)
      ensures !failed ==>
        normalizedEffort == NormalizedEffort(inputManager.GetBreathIntensity(), maxCalibratedBreath)
      ensures !failed ==> liftForce == NextLift(normalizedEffort, old(liftForce))
      ensures !failed ==> currentPathIndex == AimAt(pathPoints, old(currentPathIndex), old(boatPosX)).index
      ensures !failed ==>
        Motion(boatPosX, boatPosY, boatVelocityY) ==
        PhysicsStep(old(Motion(boatPosX, boatPosY, boatVelocityY)), liftForce, normalizedEffort,
                    AimAt(pathPoints, old(currentPathIndex), old(boatPosX)).y)
      ensures !failed ==> coins == CollectAll(old(coins), BoatRect(boatPosX, boatPosY))
      ensures !failed ==>
        Progress(currentPhase, phasesCompleted) ==
        PhaseStep(old(Progress(currentPhase, phasesCompleted)), coinsCollected, boatPosX)
      ensures !failed && boatPosX > FinishLineX as real ==>
        && sceneManager.currentSceneName == WorldMapName
        && fresh(sceneManager.currentScene) && sceneManager.currentScene.kind == WorldMapName
        && sceneManager.running == old(sceneManager.running)
        && sceneManager.scenes == old(sceneManager.scenes)[WorldMapName := sceneManager.currentScene]
      ensures !failed && boatPosX <= FinishLineX as real ==> unchanged(sceneManager)
    {
      if !ready {
        return true;
      }
      Steer();
      Score();
      if boatPosX > FinishLineX as real {
        NamesDistinct();
        sceneManager.GoToScene(WorldMapName);
      }
      return false;
    }

    /** `handle_events` for one key press: ESC leaves for the world map. */
    method HandleKey(key: Key)
      requires sceneManager.Valid()
      modifies sceneManager
      ensures sceneManager.Valid()
      ensures key == Escape ==>
        && sceneManager.currentSceneName == WorldMapName
        && fresh(sceneManager.currentScene) && sceneManager.currentScene.kind == WorldMapName
        && sceneManager.running == old(sceneManager.running)
        && sceneManager.scenes == old(sceneManager.scenes)[WorldMapName := sceneManager.currentScene]
      ensures key != Escape ==> unchanged(sceneManager)
    {
      if key == Escape {
        NamesDistinct();
        sceneManager.GoToScene(WorldMapName);
      }
    }

    /** `handle_events` for one event: only a key press acts. */
    method HandleEvent(e: Event)
      requires sceneManager.Valid()
      modifies sceneManager
      ensures sceneManager.Valid()
      ensures e.KeyDown? && e.key == Escape ==>
        && sceneManager.currentSceneName == WorldMapName
        && fresh(sceneManager.currentScene) && sceneManager.currentScene.kind == WorldMapName
        && sceneManager.running == old(sceneManager.running)
        && sceneManager.scenes == old(sceneManager.scenes)[WorldMapName := sceneManager.currentScene]
      ensures !(e.KeyDown? && e.key == Escape) ==> unchanged(sceneManager)
    {
      if e.KeyDown? {
        HandleKey(e.key);
      }
    }
  }

  /** A freshly generated course has no collected coin. */
  lemma {:induction false} NoneCollected(coins: seq<Coin>)
    requires forall k | 0 <= k < |coins| :: !coins[k].collected
    ensures CollectedCount(coins) == 0
  {
    if coins != [] {
      var init := coins[..|coins| - 1];
      assert forall k | 0 <= k < |init| :: init[k] == coins[k];
      NoneCollected(init);
    }
  }
}
