/**
 * The breath calibration screen of scenes/calibration_scene.py: instructions,
 * a four-second listening window that keeps the strongest breath reading,
 * and a RETURN that stores the reading in the current profile.
 */
module Calibration {
  import opened Events
  import opened Numeric
  import opened Input
  import opened Profiles
  import opened Scenes

  /** The three values of the scene's `state` string. */
  datatype Phase = Instructions | Listening | Done

  /** The instruction text, by what it says. */
  datatype Message =
    | Welcome
    | BlowFor(seconds: int)
    | KeepGoing(secondsLeft: int)
    | Finished

  const ListenDuration: int := 4
  /** Readings at or below this are not trusted as a calibration. */
  const CalibrationFloor: real := 0.1

  /** The state only ever stays where it is or moves one step forward. */
  predicate Advances(s: Phase, t: Phase)
  {
    s == t || (s == Instructions && t == Listening) || (s == Listening && t == Done)
  }

  /** The countdown shown while listening: `int(listen_duration - elapsed) + 1`. */
  function SecondsLeft(elapsed: real): (n: int)
    ensures elapsed <= ListenDuration as real ==>
      (n - 1) as real <= ListenDuration as real - elapsed < n as real
  {
    Trunc(ListenDuration as real - elapsed) + 1
  }

  /** Within the window the countdown shows 5 down to 1. */
  lemma SecondsLeftInWindow(elapsed: real)
    requires 0.0 <= elapsed <= ListenDuration as real
    ensures 1 <= SecondsLeft(elapsed) <= ListenDuration + 1
  {
  }

  /** The countdown never goes up as time passes inside the window. */
  lemma SecondsLeftNeverRises(e1: real, e2: real)
    requires e1 <= e2 <= ListenDuration as real
    ensures SecondsLeft(e2) <= SecondsLeft(e1)
  {
    var a := ListenDuration as real - e1;
    var b := ListenDuration as real - e2;
    assert 0.0 <= b <= a;
    assert b.Floor <= a.Floor;
  }

  /** The value `save_calibration` stores for a detected maximum. */
  function StoredCalibration(maxRms: real): (v: real)
    ensures v > CalibrationFloor
    ensures v == maxRms || v == DefaultMaxBreathRms
    ensures maxRms > CalibrationFloor ==> v == maxRms
  {
    if maxRms > CalibrationFloor then maxRms else DefaultMaxBreathRms
  }

  /** One reading merged into the running maximum. */
  function Strongest(m: real, reading: real): (r: real)
    ensures r >= m && r >= reading
    ensures r == m || r == reading
  {
    if reading > m then reading else m
  }

  /** The maximum after a listening window with these readings, starting from 0.0. */
  function Peak(readings: seq<real>): real
  {
    if readings == [] then 0.0 else Strongest(Peak(readings[..|readings| - 1]), readings[|readings| - 1])
  }

  /** The peak is at least every reading and at least its starting value 0.0. */
  lemma {:induction false} PeakBoundsReadings(readings: seq<real>)
    ensures Peak(readings) >= 0.0
    ensures forall i | 0 <= i < |readings| :: Peak(readings) >= readings[i]
  {
    if readings != [] {
      var init := readings[..|readings| - 1];
      PeakBoundsReadings(init);
      forall i | 0 <= i < |readings| - 1
        ensures readings[i] == init[i]
      {
      }
    }
  }

  /** The peak is one of the readings, or 0.0 when none was positive. */
  lemma {:induction false} PeakIsAReading(readings: seq<real>)
    ensures Peak(readings) == 0.0 || exists i | 0 <= i < |readings| :: Peak(readings) == readings[i]
  {
    if readings != [] {
      var init := readings[..|readings| - 1];
      PeakIsAReading(init);
      if Peak(readings) != readings[|readings| - 1] && Peak(init) != 0.0 {
        var i :| 0 <= i < |init| && Peak(init) == init[i];
        assert readings[i] == init[i];
      }
    }
  }

  class CalibrationScene {
    const sceneManager: SceneManager
    const inputManager: InputManager
    /** The profile that was current when the scene was built; it may be missing. */
    const profile: Profile?
    var state: Phase
    var message: Message
    var startTime: real
    var maxRmsDetected: real

    /** `__init__`: waits for SPACE, with no reading yet. */
    constructor (sceneManager: SceneManager, inputManager: InputManager)
      ensures this.sceneManager == sceneManager && this.inputManager == inputManager
      ensures profile == sceneManager.profiles.currentProfile
      ensures state == Instructions && message == Welcome
      ensures startTime == 0.0 && maxRmsDetected == 0.0
    {
      this.sceneManager := sceneManager;
      this.inputManager := inputManager;
      profile := sceneManager.profiles.currentProfile;
      state := Instructions;
      message := Welcome;
      startTime := 0.0;
      maxRmsDetected := 0.0;
    }

    /**
     * `save_calibration`: records the floored maximum and the calibrated flag
     * in the profile and saves it. With no profile the source fails before
     * changing anything, which `failed` reports.
     */
    method SaveCalibration() returns (failed: bool)
      modifies profile, sceneManager.profiles.store
      ensures failed <==> profile == null
      ensures failed ==> unchanged(sceneManager.profiles.store)
      ensures !failed ==>
        && profile.Record() == old(profile.Record()).(isCalibrated := true, maxBreathRms := StoredCalibration(maxRmsDetected))
        && sceneManager.profiles.store.files == SavedTo(old(sceneManager.profiles.store.files), profile.Record())
    {
      if profile == null {
        return true;
      }
      profile.maxBreathRms := StoredCalibration(maxRmsDetected);
      profile.isCalibrated := true;
      profile.Save(sceneManager.profiles.store);
      return false;
    }

    /**
     * One KEYDOWN of `handle_events`: SPACE starts listening from the
     * instructions, RETURN saves and leaves for the world map once done,
     * and every other key, or either key in another state, does nothing.
     */
    method HandleKey(key: Key, now: real) returns (failed: bool)
      requires sceneManager.Valid()
      modifies this`state, this`message, this`startTime, profile, sceneManager.profiles.store, sceneManager
      ensures sceneManager.Valid()
      ensures Advances(old(state), state)
      ensures old(state) == Instructions && key == Space ==>
        && !failed && state == Listening && message == BlowFor(ListenDuration) && startTime == now
        && (profile != null ==> unchanged(profile)) && unchanged(sceneManager.profiles.store, sceneManager)
      ensures old(state) == Done && key == Return ==>
        && failed == (profile == null) && state == Done && message == old(message) && startTime == old(startTime)
        && (failed ==> unchanged(sceneManager.profiles.store, sceneManager))
        && (!failed ==>
              && profile.Record() == old(profile.Record()).(isCalibrated := true, maxBreathRms := StoredCalibration(maxRmsDetected))
              && sceneManager.profiles.store.files == SavedTo(old(sceneManager.profiles.store.files), profile.Record())
              && sceneManager.currentSceneName == WorldMapName
              && fresh(sceneManager.currentScene) && sceneManager.currentScene.kind == WorldMapName
              && sceneManager.running == old(sceneManager.running)
              && sceneManager.scenes == old(sceneManager.scenes)[WorldMapName := sceneManager.currentScene])
      ensures !(old(state) == Instructions && key == Space) && !(old(state) == Done && key == Return) ==>
        && !failed && state == old(state) && message == old(message) && startTime == old(startTime)
        && (profile != null ==> unchanged(profile)) && unchanged(sceneManager.profiles.store, sceneManager)
    {
      failed := false;
      if state == Instructions && key == Space {
        state := Listening;
        message := BlowFor(ListenDuration);
        startTime := now;
      } else if state == Done && key == Return {
        failed := SaveCalibration();
        if failed {
          return;
        }
        NamesDistinct();
        sceneManager.GoToScene(WorldMapName);
      }
    }

    /** `handle_events` for one event: only key presses act. */
    method HandleEvent(e: Event, now: real) returns (failed: bool)
      requires sceneManager.Valid()
      modifies this`state, this`message, this`startTime, profile, sceneManager.profiles.store, sceneManager
      ensures sceneManager.Valid()
      ensures Advances(old(state), state)
      ensures e.OtherEvent? ==>
        !failed && state == old(state) && unchanged(this, sceneManager.profiles.store, sceneManager)
        && (profile != null ==> unchanged(profile))
      ensures e.KeyDown? && old(state) == Instructions && e.key == Space ==>
        && !failed && state == Listening && message == BlowFor(ListenDuration) && startTime == now
        && (profile != null ==> unchanged(profile)) && unchanged(sceneManager.profiles.store, sceneManager)
      ensures e.KeyDown? && old(state) == Done && e.key == Return ==>
        && failed == (profile == null) && state == Done && message == old(message) && startTime == old(startTime)
        && (failed ==> unchanged(sceneManager.profiles.store, sceneManager))
        && (!failed ==>
              && profile.Record() == old(profile.Record()).(isCalibrated := true, maxBreathRms := StoredCalibration(maxRmsDetected))
              && sceneManager.profiles.store.files == SavedTo(old(sceneManager.profiles.store.files), profile.Record())
              && sceneManager.currentSceneName == WorldMapName
              && fresh(sceneManager.currentScene) && sceneManager.currentScene.kind == WorldMapName
              && sceneManager.running == old(sceneManager.running)
              && sceneManager.scenes == old(sceneManager.scenes)[WorldMapName := sceneManager.currentScene])
      ensures e.KeyDown? && !(old(state) == Instructions && e.key == Space) && !(old(state) == Done && e.key == Return) ==>
        && !failed && state == old(state) && message == old(message) && startTime == old(startTime)
        && (profile != null ==> unchanged(profile)) && unchanged(sceneManager.profiles.store, sceneManager)
    {
      failed := false;
      if e.KeyDown? {
        failed := HandleKey(e.key, now);
      }
    }

    /**
     * `update` at time `now`: inside the listening window it merges the
     * current breath reading into the maximum; the first call after the
     * window closes moves to Done without taking a reading.
     */
    method Update(now: real)
      modifies this`state, this`message, this`maxRmsDetected
      ensures Advances(old(state), state)
      ensures old(state) != Listening ==>
        state == old(state) && message == old(message) && maxRmsDetected == old(maxRmsDetected)
      ensures old(state) == Listening && now - startTime <= ListenDuration as real ==>
        && state == Listening
        && maxRmsDetected == Strongest(old(maxRmsDetected), inputManager.GetBreathIntensity())
        && message == KeepGoing(SecondsLeft(now - startTime))
      ensures old(state) == Listening && now - startTime > ListenDuration as real ==>
        state == Done && message == Finished && maxRmsDetected == old(maxRmsDetected)
      ensures maxRmsDetected >= old(maxRmsDetected)
    {
      if state == Listening {
        var elapsed := now - startTime;
        if elapsed <= ListenDuration as real {
          var currentBreath := inputManager.GetBreathIntensity();
          if currentBreath > maxRmsDetected {
            maxRmsDetected := currentBreath;
          }
          message := KeepGoing(SecondsLeft(elapsed));
        } else {
          state := Done;
          message := Finished;
        }
      }
    }
  }
}
