/**
 * The scene table of scene_manager.py. The manager only ever builds scenes,
 * stores them and picks one; a scene is modelled here by an opaque handle
 * that records which kind of scene it is. The scenes' own state is modelled
 * by their classes in the other modules.
 */
module Scenes {
  import opened Profiles

  const LoginName: string := "LoginScene"
  const CalibrationName: string := "CalibrationScene"
  const WorldMapName: string := "WorldMapScene"
  const BoatName: string := "BoatScene"
  const TestName: string := "TestScene"

  const SceneNames: set<string> := {LoginName, CalibrationName, WorldMapName, BoatName, TestName}

  /** One constructed scene object; a new handle stands for a newly built scene. */
  class SceneHandle {
    const kind: string

    constructor (kind: string)
      ensures this.kind == kind
    {
      this.kind := kind;
    }
  }

  lemma NamesDistinct()
    ensures LoginName != CalibrationName && LoginName != WorldMapName && LoginName != BoatName
    ensures LoginName != TestName && CalibrationName != WorldMapName && CalibrationName != BoatName
    ensures CalibrationName != TestName && WorldMapName != BoatName && WorldMapName != TestName
    ensures BoatName != TestName
  {
    assert LoginName[0] == 'L' && CalibrationName[0] == 'C' && WorldMapName[0] == 'W';
    assert BoatName[0] == 'B' && TestName[0] == 'T';
  }

  /** Building a BoatScene may itself switch scenes, so it ranks above the others. */
  function Rank(name: string): nat
  {
    if name == BoatName then 1 else 0
  }

  class SceneManager {
    const profiles: ProfileManager
    var scenes: map<string, SceneHandle>
    var currentSceneName: string
    var currentScene: SceneHandle
    var running: bool
    var initializing: bool

    /** After construction: not initializing, and the table holds exactly the five scenes. */
    ghost predicate Valid()
      reads this
    {
      !initializing && scenes.Keys == SceneNames
    }

    /** The test at the top of `BoatScene.__init__`: no profile, or one not yet calibrated. */
    predicate BoatRedirects()
      reads this, profiles, profiles.currentProfile
    {
      profiles.currentProfile == null || !profiles.currentProfile.isCalibrated
    }

    /**
     * `__init__`: builds the five scenes in order (a BoatScene built without a
     * calibrated profile switches to the LoginScene entry while initializing),
     * then starts on the LoginScene.
     */
    constructor (profiles: ProfileManager)
      ensures this.profiles == profiles
      ensures Valid() && running
      ensures currentSceneName == LoginName && currentScene == scenes[LoginName]
      ensures forall n | n in scenes :: fresh(scenes[n]) && scenes[n].kind == n
    {
      this.profiles := profiles;
      initializing := true;
      var login := new SceneHandle(LoginName);
      scenes := map[LoginName := login];
      currentSceneName := LoginName;
      currentScene := login;
      running := false;
      new;
      BuildRemainingScenes();
      NamesDistinct();
      forall n | n in scenes
        ensures fresh(scenes[n]) && scenes[n].kind == n
      {
        if n == LoginName {
        } else if n == CalibrationName {
        } else if n == WorldMapName {
        } else if n == BoatName {
        } else {
          assert n == TestName;
        }
      }
      currentSceneName := LoginName;
      currentScene := scenes[currentSceneName];
      running := true;
      initializing := false;
    }

    /** Lines 19-22 of `__init__`: the four scenes built after the LoginScene, in order. */
    method BuildRemainingScenes()
      requires initializing && scenes.Keys == {LoginName}
      modifies this
      ensures initializing && running == old(running)
      ensures scenes.Keys == SceneNames && scenes[LoginName] == old(scenes[LoginName])
      ensures fresh(scenes[CalibrationName]) && scenes[CalibrationName].kind == CalibrationName
      ensures fresh(scenes[WorldMapName]) && scenes[WorldMapName].kind == WorldMapName
      ensures fresh(scenes[BoatName]) && scenes[BoatName].kind == BoatName
      ensures fresh(scenes[TestName]) && scenes[TestName].kind == TestName
    {
      NamesDistinct();
      // Only the BoatScene's constructor reaches back into the manager.
      var calibration := new SceneHandle(CalibrationName);
      scenes := scenes[CalibrationName := calibration];
      var worldMap := new SceneHandle(WorldMapName);
      scenes := scenes[WorldMapName := worldMap];
      var boat := Construct(BoatName);
      scenes := scenes[BoatName := boat];
      var test := new SceneHandle(TestName);
      scenes := scenes[TestName := test];
    }

    /**
     * Builds a scene of the given kind. Building a BoatScene without a
     * calibrated profile calls `go_to_scene('LoginScene')` from the scene's
     * constructor; no other scene touches the manager while it is built.
     */
    method Construct(kind: string) returns (h: SceneHandle)
      requires kind in SceneNames
      requires initializing ==> LoginName in scenes
      requires !initializing ==> scenes.Keys == SceneNames
      modifies this
      decreases Rank(kind), 0
      ensures fresh(h) && h.kind == kind
      ensures initializing == old(initializing) && running == old(running)
      ensures !(kind == BoatName && BoatRedirects()) ==>
        scenes == old(scenes) && currentSceneName == old(currentSceneName) && currentScene == old(currentScene)
      ensures kind == BoatName && BoatRedirects() && old(initializing) ==>
        scenes == old(scenes) && currentSceneName == LoginName && currentScene == scenes[LoginName]
      ensures kind == BoatName && BoatRedirects() && !old(initializing) ==>
        && currentSceneName == LoginName && fresh(currentScene) && currentScene.kind == LoginName
        && scenes == old(scenes)[LoginName := currentScene]
    {
      h := new SceneHandle(kind);
      if kind == BoatName && BoatRedirects() {
        GoToScene(LoginName);
      }
    }

    /**
     * `go_to_scene`. While initializing it switches to the existing entry.
     * Afterwards an unknown name changes nothing, and a known one rebuilds
     * that scene, stores it and makes it current. A rebuilt BoatScene without
     * a calibrated profile switches to a rebuilt LoginScene from its own
     * constructor, after which `current_scene` is overwritten with the
     * BoatScene again, so the name and the scene disagree.
     */
    method GoToScene(name: string)
      requires initializing ==> name in scenes
      requires !initializing ==> scenes.Keys == SceneNames
      modifies this
      decreases Rank(name), 1
      ensures initializing == old(initializing) && running == old(running)
      ensures scenes.Keys == old(scenes.Keys)
      ensures old(initializing) ==>
        scenes == old(scenes) && currentSceneName == name && currentScene == scenes[name]
      ensures !old(initializing) && name !in SceneNames ==>
        scenes == old(scenes) && currentSceneName == old(currentSceneName) && currentScene == old(currentScene)
      ensures !old(initializing) && name in SceneNames && !(name == BoatName && BoatRedirects()) ==>
        && currentSceneName == name && fresh(currentScene) && currentScene.kind == name
        && scenes == old(scenes)[name := currentScene]
      ensures !old(initializing) && name == BoatName && BoatRedirects() ==>
        && currentSceneName == LoginName && fresh(currentScene) && currentScene.kind == BoatName
        && fresh(scenes[LoginName]) && scenes[LoginName].kind == LoginName
        && scenes == old(scenes)[LoginName := scenes[LoginName]][BoatName := currentScene]
    {
      if initializing {
        currentSceneName := name;
        currentScene := scenes[name];
        return;
      }
      if name in scenes {
        currentSceneName := name;
        var h := Construct(name);
        scenes := scenes[name := h];
        currentScene := scenes[name];
      }
    }

    method QuitGame()
      modifies this`running
      ensures !running
    {
      running := false;
    }
  }
}
