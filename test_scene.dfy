/**
 * The microphone and camera diagnostics screen of scenes/test_scene.py:
 * arrow keys tune the breath multiplier and the motion threshold within
 * fixed ranges and pass them on to the input manager.
 */
module Diagnostics {
  import opened Events
  import opened Input
  import opened Scenes

  const InitialBreathMultiplier: real := 100.0
  const MinBreathMultiplier: real := 10.0
  const MaxBreathMultiplier: real := 500.0
  const BreathMultiplierStep: real := 10.0
  const InitialMotionThreshold: int := 30
  const MinMotionThreshold: int := 5
  const MaxMotionThreshold: int := 100
  const MotionThresholdStep: int := 5

  /** UP: `min(500.0, m + 10.0)`. */
  function RaiseMultiplier(m: real): (r: real)
    ensures r <= MaxBreathMultiplier
    ensures r == m + BreathMultiplierStep || r == MaxBreathMultiplier
    ensures m <= MaxBreathMultiplier ==> r >= m
    ensures m + BreathMultiplierStep <= MaxBreathMultiplier ==> r == m + BreathMultiplierStep
  {
    if m + BreathMultiplierStep < MaxBreathMultiplier then m + BreathMultiplierStep else MaxBreathMultiplier
  }

  /** DOWN: `max(10.0, m - 10.0)`. */
  function LowerMultiplier(m: real): (r: real)
    ensures r >= MinBreathMultiplier
    ensures r == m - BreathMultiplierStep || r == MinBreathMultiplier
    ensures m >= MinBreathMultiplier ==> r <= m
    ensures m - BreathMultiplierStep >= MinBreathMultiplier ==> r == m - BreathMultiplierStep
  {
    if m - BreathMultiplierStep > MinBreathMultiplier then m - BreathMultiplierStep else MinBreathMultiplier
  }

  /** RIGHT: `min(100, t + 5)`. */
  function RaiseThreshold(t: int): (r: int)
    ensures r <= MaxMotionThreshold
    ensures r == t + MotionThresholdStep || r == MaxMotionThreshold
    ensures t <= MaxMotionThreshold ==> r >= t
    ensures t + MotionThresholdStep <= MaxMotionThreshold ==> r == t + MotionThresholdStep
  {
    if t + MotionThresholdStep < MaxMotionThreshold then t + MotionThresholdStep else MaxMotionThreshold
  }

  /** LEFT: `max(5, t - 5)`. */
  function LowerThreshold(t: int): (r: int)
    ensures r >= MinMotionThreshold
    ensures r == t - MotionThresholdStep || r == MinMotionThreshold
    ensures t >= MinMotionThreshold ==> r <= t
    ensures t - MotionThresholdStep >= MinMotionThreshold ==> r == t - MotionThresholdStep
  {
    if t - MotionThresholdStep > MinMotionThreshold then t - MotionThresholdStep else MinMotionThreshold
  }

  /** The multiplier's reachable values: 10.0, 20.0, …, 500.0. */
  predicate MultiplierInRange(m: real)
  {
    MinBreathMultiplier <= m <= MaxBreathMultiplier && m.Floor as real == m && m.Floor % 10 == 0
  }

  /** The threshold's reachable values: 5, 10, …, 100. */
  predicate ThresholdInRange(t: int)
  {
    MinMotionThreshold <= t <= MaxMotionThreshold && t % MotionThresholdStep == 0
  }

  /** Both multiplier keys keep the multiplier on its grid of reachable values. */
  lemma MultiplierKeysKeepRange(m: real)
    requires MultiplierInRange(m)
    ensures MultiplierInRange(RaiseMultiplier(m)) && MultiplierInRange(LowerMultiplier(m))
  {
    var n := m.Floor;
    assert (n + 10) as real == m + 10.0 && (n - 10) as real == m - 10.0;
    assert (n + 10) % 10 == 0 && (n - 10) % 10 == 0;
    assert RaiseMultiplier(m) == m + 10.0 ==> RaiseMultiplier(m).Floor == n + 10;
    assert LowerMultiplier(m) == m - 10.0 ==> LowerMultiplier(m).Floor == n - 10;
  }

  /** Both threshold keys keep the threshold on its grid of reachable values. */
  lemma ThresholdKeysKeepRange(t: int)
    requires ThresholdInRange(t)
    ensures ThresholdInRange(RaiseThreshold(t)) && ThresholdInRange(LowerThreshold(t))
  {
  }

  /** Inside the range, one step up and one step down come back to the start. */
  lemma MultiplierStepsCancel(m: real)
    requires MinBreathMultiplier <= m <= MaxBreathMultiplier - BreathMultiplierStep
    ensures LowerMultiplier(RaiseMultiplier(m)) == m
  {
  }

  /** Inside the range, one step down and one step up come back to the start. */
  lemma ThresholdStepsCancel(t: int)
    requires MinMotionThreshold + MotionThresholdStep <= t <= MaxMotionThreshold
    ensures RaiseThreshold(LowerThreshold(t)) == t
  {
  }

  class TestScene {
    const sceneManager: SceneManager
    const inputManager: InputManager
    var breathMultiplier: real
    var motionThreshold: int
    var showCamera: bool

    ghost predicate Valid()
      reads this
    {
      MultiplierInRange(breathMultiplier) && ThresholdInRange(motionThreshold)
    }

    /** `__init__`: the initial sensitivities, which the input manager does not yet share. */
    constructor (sceneManager: SceneManager, inputManager: InputManager)
      ensures Valid()
      ensures this.sceneManager == sceneManager && this.inputManager == inputManager
      ensures breathMultiplier == InitialBreathMultiplier && motionThreshold == InitialMotionThreshold
      ensures showCamera
    {
      this.sceneManager := sceneManager;
      this.inputManager := inputManager;
      breathMultiplier := InitialBreathMultiplier;
      motionThreshold := InitialMotionThreshold;
      showCamera := true;
      assert (100.0).Floor == 100;
    }

    /**
     * One KEYDOWN of `handle_events`. ESC leaves for the world map; C toggles
     * the camera view; UP and DOWN move the multiplier and RIGHT and LEFT the
     * threshold within their ranges, and each passes the new value on to the
     * input manager; every other key does nothing.
     */
    method HandleKey(key: Key)
      requires Valid() && sceneManager.Valid()
      modifies this, inputManager`breathMultiplier, inputManager`motionThreshold, sceneManager
      ensures Valid() && sceneManager.Valid()
      ensures key == Escape ==>
        && sceneManager.currentSceneName == WorldMapName
        && fresh(sceneManager.currentScene) && sceneManager.currentScene.kind == WorldMapName
        && sceneManager.running == old(sceneManager.running)
        && sceneManager.scenes == old(sceneManager.scenes)[WorldMapName := sceneManager.currentScene]
      ensures key != Escape ==> unchanged(sceneManager)
      ensures showCamera == (if key == KeyC then !old(showCamera) else old(showCamera))
      ensures breathMultiplier ==
        (if key == Up then RaiseMultiplier(old(breathMultiplier))
         else if key == Down then LowerMultiplier(old(breathMultiplier))
         else old(breathMultiplier))
      ensures motionThreshold ==
        (if key == Right then RaiseThreshold(old(motionThreshold))
         else if key == Left then LowerThreshold(old(motionThreshold))
         else old(motionThreshold))
      ensures key == Up || key == Down ==>
        inputManager.breathMultiplier == breathMultiplier && unchanged(inputManager`motionThreshold)
      ensures key == Left || key == Right ==>
        inputManager.motionThreshold == motionThreshold as real && unchanged(inputManager`breathMultiplier)
      ensures !(key in {Up, Down, Left, Right}) ==> unchanged(inputManager)
    {
      MultiplierKeysKeepRange(breathMultiplier);
      ThresholdKeysKeepRange(motionThreshold);
      if key == Escape {
        NamesDistinct();
        sceneManager.GoToScene(WorldMapName);
      } else if key == KeyC {
        showCamera := !showCamera;
      } else if key == Up {
        breathMultiplier := RaiseMultiplier(breathMultiplier);
        inputManager.SetBreathMultiplier(breathMultiplier);
      } else if key == Down {
        breathMultiplier := LowerMultiplier(breathMultiplier);
        inputManager.SetBreathMultiplier(breathMultiplier);
      } else if key == Left {
        motionThreshold := LowerThreshold(motionThreshold);
        inputManager.SetMotionThreshold(motionThreshold as real);
      } else if key == Right {
        motionThreshold := RaiseThreshold(motionThreshold);
        inputManager.SetMotionThreshold(motionThreshold as real);
      }
    }

    /** `handle_events` for one event: only key presses act. */
    method HandleEvent(e: Event)
      requires Valid() && sceneManager.Valid()
      modifies this, inputManager`breathMultiplier, inputManager`motionThreshold, sceneManager
      ensures Valid() && sceneManager.Valid()
      ensures e.OtherEvent? ==> unchanged(this, inputManager, sceneManager)
      ensures e.KeyDown? && e.key == Escape ==>
        && sceneManager.currentSceneName == WorldMapName
        && fresh(sceneManager.currentScene) && sceneManager.currentScene.kind == WorldMapName
        && sceneManager.running == old(sceneManager.running)
        && sceneManager.scenes == old(sceneManager.scenes)[WorldMapName := sceneManager.currentScene]
      ensures e.KeyDown? && e.key != Escape ==> unchanged(sceneManager)
      ensures e.KeyDown? ==> showCamera == (if e.key == KeyC then !old(showCamera) else old(showCamera))
      ensures e.KeyDown? ==>
        breathMultiplier ==
          (if e.key == Up then RaiseMultiplier(old(breathMultiplier))
           else if e.key == Down then LowerMultiplier(old(breathMultiplier))
           else old(breathMultiplier))
      ensures e.KeyDown? ==>
        motionThreshold ==
          (if e.key == Right then RaiseThreshold(old(motionThreshold))
           else if e.key == Left then LowerThreshold(old(motionThreshold))
           else old(motionThreshold))
      ensures e.KeyDown? && (e.key == Up || e.key == Down) ==>
        inputManager.breathMultiplier == breathMultiplier && unchanged(inputManager`motionThreshold)
      ensures e.KeyDown? && (e.key == Left || e.key == Right) ==>
        inputManager.motionThreshold == motionThreshold as real && unchanged(inputManager`breathMultiplier)
      ensures e.KeyDown? && !(e.key in {Up, Down, Left, Right}) ==> unchanged(inputManager)
    {
      if e.KeyDown? {
        HandleKey(e.key);
      }
    }
  }
}
