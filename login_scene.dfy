/**
 * The name-entry screen of scenes/login_scene.py: a text buffer edited key
 * by key, and a RETURN that loads or creates the named profile and routes
 * the player to calibration or to the world map.
 */
module Login {
  import opened Maybe
  import opened Events
  import opened Profiles
  import opened Scenes

  /** The buffer after one key press other than RETURN. */
  function EditText(text: string, key: Key, unicode: string): (r: string)
    requires key != Return
    ensures key == Backspace && text != [] ==> r + [text[|text| - 1]] == text
    ensures key == Backspace && text == [] ==> r == []
    ensures key != Backspace ==> |r| == |text| + |unicode| && r[..|text|] == text && r[|text|..] == unicode
  {
    if key == Backspace then
      if text == [] then text else text[..|text| - 1]
    else
      text + unicode
  }

  /** Typing one character and then pressing BACKSPACE gives back the buffer. */
  lemma BackspaceUndoesTyping(text: string, key: Key, c: char)
    requires key != Return && key != Backspace
    ensures EditText(EditText(text, key, [c]), Backspace, []) == text
  {
    var typed := EditText(text, key, [c]);
    assert typed == text + [c];
    assert typed[..|typed| - 1] == text;
  }

  /**
   * Where RETURN sends the player, given what loading `text` finds and the
   * profile that was current before: None when no profile is current
   * afterwards (the source then fails on `profile.is_calibrated`).
   */
  function Destination(found: Option<ProfileRecord>, text: string, before: Option<bool>): (r: Option<string>)
    ensures r.None? <==> found.None? && !IsAlnum(text) && before.None?
    ensures r == Some(WorldMapName) || r == Some(CalibrationName) || r.None?
  {
    var calibrated :=
      if found.Some? then Some(found.value.isCalibrated)
      else if IsAlnum(text) then Some(FreshRecord(text).isCalibrated)
      else before;
    match calibrated
    case None => None
    case Some(c) => Some(if c then WorldMapName else CalibrationName)
  }

  /** A name with no readable profile and an acceptable spelling always starts with calibration. */
  lemma NewPlayerCalibratesFirst(text: string, before: Option<bool>)
    requires IsAlnum(text)
    ensures Destination(None, text, before) == Some(CalibrationName)
  {
  }

  /** A readable profile alone decides the route, whatever was current before. */
  lemma StoredProfileDecides(r: ProfileRecord, text: string, before: Option<bool>)
    ensures Destination(Some(r), text, before) ==
      Some(if r.isCalibrated then WorldMapName else CalibrationName)
  {
  }

  /**
   * A rejected name with nothing to load leaves the previously current
   * profile in place, and its calibration flag decides the route.
   */
  lemma RejectedNameKeepsPrevious(text: string, c: bool)
    requires !IsAlnum(text)
    ensures Destination(None, text, Some(c)) == Some(if c then WorldMapName else CalibrationName)
  {
  }

  class LoginScene {
    const sceneManager: SceneManager
    const profiles: ProfileManager
    var inputText: string

    /** `__init__`: the profile manager is the scene manager's, and the buffer starts empty. */
    constructor (sceneManager: SceneManager)
      ensures this.sceneManager == sceneManager && profiles == sceneManager.profiles
      ensures inputText == ""
    {
      this.sceneManager := sceneManager;
      profiles := sceneManager.profiles;
      inputText := "";
    }

    /** The calibration flag of the current profile, if there is one. */
    function CurrentCalibrated(): Option<bool>
      reads profiles, profiles.currentProfile
    {
      if profiles.currentProfile == null then None else Some(profiles.currentProfile.isCalibrated)
    }

    /**
     * One KEYDOWN of `handle_events`. `failed` is true exactly when the
     * source would fail reading the calibration flag of a missing profile.
     */
    method HandleKey(key: Key, unicode: string) returns (failed: bool)
      requires sceneManager.Valid() && profiles == sceneManager.profiles
      modifies this`inputText, profiles, profiles.store, sceneManager
      ensures sceneManager.Valid()
      ensures key != Return ==>
        && !failed && inputText == EditText(old(inputText), key, unicode)
        && unchanged(profiles, profiles.store, sceneManager)
      ensures key == Return && inputText == "" ==>
        !failed && unchanged(profiles, profiles.store, sceneManager)
      ensures key == Return ==> inputText == old(inputText)
      ensures key == Return && inputText != "" ==>
        var found := Lookup(old(profiles.store.files), inputText);
        var dest := Destination(found, inputText, old(CurrentCalibrated()));
        && failed == dest.None?
        && (found.Some? ==> && profiles.currentProfile != null && fresh(profiles.currentProfile)
                            && profiles.currentProfile.Record() == found.value
                            && profiles.store.files == old(profiles.store.files))
        && (found.None? && IsAlnum(inputText) ==>
              && profiles.currentProfile != null && fresh(profiles.currentProfile)
              && profiles.currentProfile.Record() == FreshRecord(inputText)
              && profiles.store.files == SavedTo(old(profiles.store.files), FreshRecord(inputText)))
        && (found.None? && !IsAlnum(inputText) ==>
              && profiles.currentProfile == old(profiles.currentProfile)
              && profiles.store.files == old(profiles.store.files))
        && (dest.None? ==> unchanged(sceneManager))
        && (dest.Some? ==>
              && sceneManager.currentSceneName == dest.value
              && fresh(sceneManager.currentScene) && sceneManager.currentScene.kind == dest.value
              && sceneManager.running == old(sceneManager.running)
              && sceneManager.scenes == old(sceneManager.scenes)[dest.value := sceneManager.currentScene])
    {
      failed := false;
      if key != Return {
        inputText := EditText(inputText, key, unicode);
        return;
      }
      if inputText == "" {
        return;
      }
      var loaded := profiles.LoadProfile(inputText);
      if !loaded {
        var _ := profiles.CreateProfile(inputText);
      }
      var profile := profiles.GetCurrentProfile();
      if profile == null {
        return true;
      }
      assert Some(profile.isCalibrated) == CurrentCalibrated();
      NamesDistinct();
      if profile.isCalibrated {
        sceneManager.GoToScene(WorldMapName);
      } else {
        sceneManager.GoToScene(CalibrationName);
      }
    }

    /** `handle_events` for one event: only key presses act. */
    method HandleEvent(e: Event) returns (failed: bool)
      requires sceneManager.Valid() && profiles == sceneManager.profiles
      modifies this`inputText, profiles, profiles.store, sceneManager
      ensures sceneManager.Valid()
      ensures e.OtherEvent? ==>
        !failed && inputText == old(inputText) && unchanged(profiles, profiles.store, sceneManager)
      ensures e.KeyDown? && e.key != Return ==>
        && !failed && inputText == EditText(old(inputText), e.key, e.unicode)
        && unchanged(profiles, profiles.store, sceneManager)
      ensures e.KeyDown? && e.key == Return && inputText == "" ==>
        !failed && unchanged(profiles, profiles.store, sceneManager)
      ensures e.KeyDown? && e.key == Return ==> inputText == old(inputText)
      ensures e.KeyDown? && e.key == Return && inputText != "" ==>
        var found := Lookup(old(profiles.store.files), inputText);
        var dest := Destination(found, inputText, old(CurrentCalibrated()));
        && failed == dest.None?
        && (found.Some? ==> && profiles.currentProfile != null && fresh(profiles.currentProfile)
                            && profiles.currentProfile.Record() == found.value
                            && profiles.store.files == old(profiles.store.files))
        && (found.None? && IsAlnum(inputText) ==>
              && profiles.currentProfile != null && fresh(profiles.currentProfile)
              && profiles.currentProfile.Record() == FreshRecord(inputText)
              && profiles.store.files == SavedTo(old(profiles.store.files), FreshRecord(inputText)))
        && (found.None? && !IsAlnum(inputText) ==>
              && profiles.currentProfile == old(profiles.currentProfile)
              && profiles.store.files == old(profiles.store.files))
        && (dest.None? ==> unchanged(sceneManager))
        && (dest.Some? ==>
              && sceneManager.currentSceneName == dest.value
              && fresh(sceneManager.currentScene) && sceneManager.currentScene.kind == dest.value
              && sceneManager.running == old(sceneManager.running)
              && sceneManager.scenes == old(sceneManager.scenes)[dest.value := sceneManager.currentScene])
    {
      failed := false;
      if e.KeyDown? {
        failed := HandleKey(e.key, e.unicode);
      }
    }
  }
}
