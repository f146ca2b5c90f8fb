# Aetheria: breath and motion game core, modelled in Dafny

Aetheria is a pygame game for breathing and movement exercises. A microphone
measures how hard the player blows and a camera measures how much they move. A
profile remembers each player's calibration. A small scene manager switches
between a login screen, a breath calibration screen, a world map, the boat
minigame and a sensor diagnostics screen.

This project models the game's logic:

- **Input** (`input_manager.dfy`) models the breath envelope filter that
  every audio callback applies. It is a noise gate followed by a moving
  average over at most 8 samples, an activation level, two decay factors and
  a history reset. It also models the motion score computed from the
  contour areas of a frame difference, and the microphone error sentinel.
  `InputManager` is a class whose methods update its fields. Beside it are
  pure functions (`AudioStep`, `Run`, `ContourArea`, `MotionScore`) and
  lemmas about runs of callbacks.
- **Profiles** (`profile_manager.dfy`) models player profiles, the name
  check, and saving and loading over a store. The store is the set of
  `profile_<name>.json` files, modelled as a name-to-contents map.
- **Scenes** (`scene_manager.dfy`) models the scene table and its
  initialization mode, including the case where a BoatScene, while being
  built, switches to the LoginScene.
- **Login**, **Calibration**, **Diagnostics** and **Boat** model
  `scenes/login_scene.py`, `scenes/calibration_scene.py`,
  `scenes/test_scene.py` and `scenes/boat_scene.py`. Each scene is a class
  with the scene's own fields. Its key handler and per-frame update are
  methods. Each method is specified by pure functions of the old state, and
  the properties are proved about those functions.
- **Numeric** holds Python's `int()` on floats and `max(lo, min(hi, v))`.
  **Events** holds the keys the scenes react to. **Maybe** holds an
  `Option` type.

Outside inputs become parameters:

- the RMS of an audio block;
- the areas of the contours OpenCV finds;
- the frame size;
- the current time (`now`);
- `math.sin` in the boat course (`sine(d)` stands for `math.sin(d * 0.01)`);
- `random.randint(-40, 40)` (`jitter(k)` is its k-th draw).

Where the source would stop with an exception, the method returns
`failed = true` and leaves the state as it was when the error happened.
There are three such cases:

- the routing step of `LoginScene`, when no profile is current;
- `save_calibration` without a profile;
- `update` on a BoatScene whose constructor returned early.

## Model

| member | source | states |
|---|---|---|
| Input.AudioStepKeepsInvariant | input_manager.py:61-82 | after any audio callback the breath intensity is not negative, whatever it was before (the -1 sentinel included), and the history still holds only samples above the 0.05 gate, at most 8 of them |
| Input.StepIntensity | input_manager.py:62-79 | a block above the gate whose pushed history averages above 0.1 sets the intensity to that average; one whose average is at most 0.1 sets it to max(0, 0.8 * previous); a block at or below the gate sets it to max(0, 0.7 * previous); so the result is never negative, and it rises above a non-negative intensity only to the average |
| Input.StepHistory | input_manager.py:62-82 | a block above the gate is appended last and a history of at most 8 stays at most 8; a block at or below the gate adds nothing, and the history is cleared exactly when the new intensity is below 0.001 and kept otherwise |
| Input.AudioStep | input_manager.py:61-82 | one callback leaves the intensity non-negative, and a rise in intensity means the block was recorded last and the intensity is the mean of the new history; the value of each branch is that of `StepIntensity` and `StepHistory`, whose contracts state them |
| Input.GatedMeanAboveGate | input_manager.py:62-69 | the moving average of a gated history is itself above the noise gate |
| Input.HistoryIsWindow | input_manager.py:62-66 | after any run of blocks above the gate, the history is exactly the last 8 samples, oldest first: overflow drops the oldest entry |
| Input.WindowAppend | input_manager.py:64-66 | appending to the 8-sample window, then dropping the front on overflow, gives the window of the longer sequence |
| Input.ConstantBreathSettles | input_manager.py:62-73 | a steady breath above 0.1 held for 8 or more blocks fills the history with that value, and the intensity becomes exactly that value |
| Input.WeakBreathDecays | input_manager.py:69-76 | a block above the gate, in a window whose every sample is at most 0.1, does not set the intensity; the intensity becomes max(0, 0.8 * previous) and the sample is pushed |
| Input.SilenceDecays | input_manager.py:77-79 | during a run of blocks at or below the gate, the intensity after n blocks is 0.7^n times its starting value |
| Input.SilentBlockDecays | input_manager.py:77-79 | one block at or below the gate multiplies a non-negative intensity by exactly 0.7 |
| Input.SilenceClearsHistory | input_manager.py:77-82 | after one or more blocks at or below the gate, the history is the one from before the silence while the intensity is at least 0.001, and empty once it drops below |
| Input.EnvelopeBounded | input_manager.py:61-82 | if the intensity, the history and every block are at most m, the intensity and the history stay at most m and the history stays gated |
| Input.ContourArea | input_manager.py:140-143 | the motion area is not negative, and it is 0 exactly when no contour is larger than 500 |
| Input.SumContourArea | input_manager.py:140-143 | the accumulating loop sums exactly the contour areas above 500 |
| Input.MotionScore | input_manager.py:146-147 | the score is min(100, area / (height * width) * 10000): below 100 it is exactly that ratio, and 100 is reached only when the ratio is at least 100; it lies in [0, 100] and is 0 exactly when the area is 0 |
| Input.InputManager.constructor | input_manager.py:12-32 | breath intensity 0, multiplier 50, empty history, no motion detected, motion intensity 0, no previous frame, threshold 30 |
| Input.InputManager.SetBreathMultiplier | input_manager.py:44-47 | sets the multiplier and changes no other field |
| Input.InputManager.SetMotionThreshold | input_manager.py:49-52 | sets the threshold and changes no other field; in particular the detected flag waits for the next frame |
| Input.InputManager.AudioCallback | input_manager.py:54-82 | the new intensity and history are those of `AudioStep` on the old ones; the intensity is not negative afterwards |
| Input.InputManager.MicUnavailable | input_manager.py:90-92 | the intensity becomes the -1 sentinel, so the scaled reading is minus the multiplier |
| Input.InputManager.DetectMotion | input_manager.py:119-153 | the frame is always remembered; the first frame changes nothing else; a later frame sets the intensity to the score of the areas above 500 and sets detected to (intensity > threshold) |
| Input.InputManager.GetBreathIntensity | input_manager.py:155-157 | the sentinel reads as minus the multiplier; a non-negative intensity with a non-negative multiplier reads as non-negative; silence reads as 0 |
| Input.InputManager.GetMotionIntensity | input_manager.py:163-165 | the reading lies in [0, 100] |
| Profiles.Lookup | profile_manager.py:24-37 | loading gives a record exactly when the file exists and is readable; a missing or corrupt file gives None |
| Profiles.SavedTo | profile_manager.py:17-21 | saving adds or replaces only the file of the record's own name |
| Profiles.SaveThenLoad | profile_manager.py:17-34 | saving a record and loading its name gives back every field |
| Profiles.SaveKeepsOthers | profile_manager.py:17-21 | saving one profile leaves what every other name loads unchanged |
| Profiles.AcceptedNameIsFileStem | profile_manager.py:44 | an accepted name is non-empty and holds no path separator, dot or space, so `profile_<name>.json` stays one file in the current directory |
| Profiles.IsAlnumChar | profile_manager.py:44 | a character counts as alphanumeric when it is an ASCII letter or digit; `AcceptedNameIsFileStem` states what this rules out |
| Profiles.IsAlnum | profile_manager.py:44 | `str.isalnum`: a non-empty string whose every character is alphanumeric; `AcceptedNameIsFileStem` states what an accepted name cannot contain |
| Profiles.Profile.constructor | profile_manager.py:6-15 | a fresh profile is uncalibrated, has a maximum breath of 1.0, has "boat_scene" as its only unlocked world and has no achievements |
| Profiles.Profile.FromRecord | profile_manager.py:31-32 | the loaded profile carries exactly the fields of the stored record |
| Profiles.Profile.Save | profile_manager.py:17-21 | the store afterwards is the old store with this profile's record under its name |
| Profiles.Profile.Load | profile_manager.py:23-37 | returns null exactly when the file is missing or corrupt; otherwise returns a new profile with the stored fields |
| Profiles.ProfileManager.constructor | profile_manager.py:40-41 | no profile is current |
| Profiles.ProfileManager.CreateProfile | profile_manager.py:43-49 | succeeds exactly for alphanumeric names (not the empty name); on failure nothing changes; on success a fresh profile is current and is saved under its name |
| Profiles.ProfileManager.LoadProfile | profile_manager.py:51-56 | succeeds exactly when a readable file exists, and then makes a profile with its fields current; otherwise the current profile is unchanged |
| Scenes.SceneManager.constructor | scene_manager.py:9-27 | the table holds exactly the five scenes, each newly built; the current scene is the LoginScene entry; running is true and initializing is false |
| Scenes.SceneManager.BuildRemainingScenes | scene_manager.py:18-22 | builds the calibration, world map, boat and test scenes into the table, keeping the LoginScene entry |
| Scenes.SceneManager.Construct | scenes/boat_scene.py:12-16 | building a scene never changes the table or the current scene, except a BoatScene built with no profile or an uncalibrated one: during initialization it switches to the existing LoginScene entry, and afterwards to a newly built LoginScene |
| Scenes.SceneManager.BoatRedirects | scenes/boat_scene.py:14-16 | holds exactly when no profile is current or the current one is uncalibrated, the condition on which the BoatScene constructor switches to the LoginScene and returns early; `Construct` and `GoToScene` state what follows from it |
| Scenes.SceneManager.GoToScene | scene_manager.py:29-53 | during initialization it switches to the existing entry; afterwards an unknown name changes nothing and a known name makes a newly built scene current and stores it; a BoatScene that redirects leaves the name at LoginScene while the current scene is the new BoatScene |
| Scenes.SceneManager.QuitGame | scene_manager.py:64-65 | running becomes false and nothing else changes |
| Login.EditText | scenes/login_scene.py:29-32 | BACKSPACE drops exactly the last character and leaves an empty buffer empty; any other key appends its text, possibly empty |
| Login.BackspaceUndoesTyping | scenes/login_scene.py:29-32 | typing one character and then pressing BACKSPACE gives back the buffer |
| Login.Destination | scenes/login_scene.py:19-28 | RETURN routes to WorldMapScene or CalibrationScene, and fails exactly when nothing loads, the name is rejected and no profile was current before |
| Login.NewPlayerCalibratesFirst | scenes/login_scene.py:20-28 | a valid name with no readable profile always goes to calibration |
| Login.StoredProfileDecides | scenes/login_scene.py:20-28 | a readable profile alone decides the route, whatever was current before |
| Login.RejectedNameKeepsPrevious | scenes/login_scene.py:20-28 | a rejected name with no readable profile leaves the previously current profile in place, and that profile's calibration flag decides the route |
| Login.LoginScene.constructor | scenes/login_scene.py:7-12 | the scene shares the manager's profiles and starts with an empty buffer |
| Login.LoginScene.HandleKey | scenes/login_scene.py:16-32 | RETURN on an empty buffer does nothing; otherwise RETURN loads and creates only if loading fails, then switches to the destination or fails; other keys only edit the buffer; a switch of scenes leaves the game running as it was |
| Login.LoginScene.HandleEvent | scenes/login_scene.py:15-16 | a key press has exactly the effect `HandleKey` states for its key (and text), switches of scene included; any other event changes nothing |
| Numeric.Trunc | scenes/calibration_scene.py:39 | `int()` truncates toward zero: the result is within 1 of the argument, on the side of zero |
| Numeric.Clamp | scenes/boat_scene.py:78 | the result lies in [lo, hi]; it equals the value when the value is in range, and otherwise the bound it crossed |
| Calibration.SecondsLeftInWindow | scenes/calibration_scene.py:35-39 | inside the four-second window the countdown shows a number from 5 down to 1 |
| Calibration.SecondsLeftNeverRises | scenes/calibration_scene.py:39 | the countdown never goes up as time passes inside the window |
| Calibration.SecondsLeft | scenes/calibration_scene.py:39 | inside the window the countdown minus 1 is the number of whole seconds left: it is at most the time left, and the countdown itself is above it |
| Calibration.Strongest | scenes/calibration_scene.py:36-38 | a merged reading is at least the old maximum and at least the reading, and is one of the two |
| Calibration.StoredCalibration | scenes/calibration_scene.py:45 | the stored maximum always exceeds 0.1; it is the detected maximum when that exceeds 0.1, and 1.0 otherwise |
| Calibration.PeakBoundsReadings | scenes/calibration_scene.py:19 | the running maximum, starting from 0.0, is at least 0.0 and at least every reading taken |
| Calibration.PeakIsAReading | scenes/calibration_scene.py:36-38 | the running maximum is one of the readings, or 0.0 |
| Calibration.CalibrationScene.constructor | scenes/calibration_scene.py:8-19 | the scene takes the current profile, starts in INSTRUCTIONS with no reading and a start time of 0 |
| Calibration.CalibrationScene.SaveCalibration | scenes/calibration_scene.py:44-47 | stores the floored maximum and the calibrated flag in the profile, changing nothing else in it, and saves it; with no profile it fails |
| Calibration.CalibrationScene.HandleKey | scenes/calibration_scene.py:21-30 | SPACE acts only in INSTRUCTIONS, where it starts listening at `now`; RETURN acts only in DONE: it saves first and then switches to the world map; every other key does nothing; the state only moves forward; a switch of scenes leaves the game running as it was |
| Calibration.CalibrationScene.HandleEvent | scenes/calibration_scene.py:22-23 | a key press has exactly the effect `HandleKey` states for its key (and text), switches of scene included; any other event changes nothing |
| Calibration.CalibrationScene.Update | scenes/calibration_scene.py:32-42 | only LISTENING changes: inside the window the reading is merged into the maximum, which never decreases; the first call past the window moves to DONE without a reading |
| Diagnostics.RaiseMultiplier | scenes/test_scene.py:37-39 | UP adds exactly 10 when that stays within 500; otherwise the result is 500; it never exceeds 500 and never lowers a multiplier within range |
| Diagnostics.LowerMultiplier | scenes/test_scene.py:40-42 | DOWN subtracts exactly 10 when that stays at 10 or more; otherwise the result is 10; it is never below 10 and never raises a multiplier within range |
| Diagnostics.LowerThreshold | scenes/test_scene.py:43-45 | LEFT subtracts exactly 5 when that stays at 5 or more; otherwise the result is 5; it is never below 5 and never raises a threshold within range |
| Diagnostics.RaiseThreshold | scenes/test_scene.py:46-48 | RIGHT adds exactly 5 when that stays within 100; otherwise the result is 100; it never exceeds 100 and never lowers a threshold within range |
| Diagnostics.MultiplierKeysKeepRange | scenes/test_scene.py:37-42 | starting from 100, the multiplier keys keep it a multiple of 10 in [10, 500] |
| Diagnostics.ThresholdKeysKeepRange | scenes/test_scene.py:43-48 | starting from 30, the threshold keys keep it a multiple of 5 in [5, 100] |
| Diagnostics.MultiplierStepsCancel | scenes/test_scene.py:37-42 | within the range, UP followed by DOWN restores the multiplier |
| Diagnostics.ThresholdStepsCancel | scenes/test_scene.py:43-48 | within the range, LEFT followed by RIGHT restores the threshold |
| Diagnostics.TestScene.constructor | scenes/test_scene.py:16-18 | the scene starts with multiplier 100, threshold 30 and the camera shown |
| Diagnostics.TestScene.HandleKey | scenes/test_scene.py:32-48 | ESC switches to the world map; C toggles the camera view; the arrow keys move their setting and pass the new value to the input manager, which then agrees with the scene; other keys change nothing; a switch of scenes leaves the game running as it was |
| Diagnostics.TestScene.HandleEvent | scenes/test_scene.py:30-32 | a key press has exactly the effect `HandleKey` states for its key (and text), switches of scene included; any other event changes nothing |
| Boat.GeneratePath | scenes/boat_scene.py:62-82 | 30 points at x = 100, 150, …, 1550, all before the finish line, with every height in [100, 520] for any sine values |
| Boat.GenerateCoins | scenes/boat_scene.py:84-107 | 23 uncollected coins at x = 150, 210, …, 1470, with every height in [70, 550] for any sine and random values |
| Boat.FirstReachedFrom | scenes/boat_scene.py:115-118 | returns the first point from the start index whose x is at least the boat's, or None when every point lies behind |
| Boat.AimAt | scenes/boat_scene.py:109-120 | with the recorded index inside the path and a point at or ahead of the boat, the target and the new index are those of the first such point; with the index past the end, or no such point, the target is the last point's height and the index is unchanged |
| Boat.PointAheadUntilLast | scenes/boat_scene.py:69-80 | on the generated path a point ahead exists until the boat passes x = 1550 |
| Boat.NormalizedEffort | scenes/boat_scene.py:162-165 | with a calibration above 0.1 the effort times the calibration is the breath; otherwise the effort is 0 |
| Boat.NextLift | scenes/boat_scene.py:171-176 | the lift is never negative; a strong effort sets it to ten times the effort; otherwise it drops by 1.5, floored at 0 |
| Boat.LiftFadesOut | scenes/boat_scene.py:174-176 | after n frames without a strong effort the lift is max(0, lift - 1.5 n) |
| Boat.NextVelocity | scenes/boat_scene.py:192-210 | while the effort is at least 0.1 the path is ignored and the speed is (speed - lift + 0.8) * 0.95; below 0.1 the pull moves the speed toward the path: it grows (toward larger y) when the path lies below the boat on screen and shrinks when the path lies above |
| Boat.PhysicsStep | scenes/boat_scene.py:192-229 | the height stays in [50, 570]; a move that would go below 50 stops at 50 and one above 570 stops at 570, with the speed cut to 0, and otherwise the boat moves by exactly the new speed; x always increases, by 2.5 exactly when the effort exceeds 0.25 and by 0.8 otherwise |
| Boat.Collect | scenes/boat_scene.py:127-132 | a coin keeps its place; it is collected afterwards exactly when it was already collected or the boat touches it, so a flag never reverts |
| Boat.CollectAll | scenes/boat_scene.py:126-133 | a pass keeps the number of coins; `CollectAllPointwise` states that each coin is `Collect` of the old one |
| Boat.CollectedCount | scenes/boat_scene.py:107 | the collected count never exceeds the number of coins |
| Boat.CollectAllPointwise | scenes/boat_scene.py:126-132 | one pass treats every coin on its own, and changes only collection flags |
| Boat.CollectAllCount | scenes/boat_scene.py:131-133 | the collected count afterwards is the old count plus exactly the number of coins flagged in the pass |
| Boat.CollectAllCatchesOnce | scenes/boat_scene.py:127-133 | a second pass from the same position flags nothing more |
| Boat.NoneCollected | scenes/boat_scene.py:100-105 | a freshly generated course has no collected coin |
| Boat.Requirement | scenes/boat_scene.py:48-52 | exactly phases 1 to 3 have goals |
| Boat.GoalMet | scenes/boat_scene.py:138-143 | a goal can be met only in phases 1 to 3, and only with at least that phase's coins |
| Boat.GoalsGrow | scenes/boat_scene.py:48-52 | each phase asks for more coins and more distance than the one before, so a position and count that meet a later phase's goal meet every earlier one |
| Boat.PhaseStep | scenes/boat_scene.py:136-150 | the phase stays in 1..3 and advances by at most 1, only when both goals hold, and always when they hold before the last phase; the completed count rises by 1 exactly when the goals hold |
| Boat.PhaseSteps | scenes/boat_scene.py:136-150 | the progress after k checks at the same coin count and position, the frame loop's repeated check; `CompletedPhasesExceedThree` states what it gives in the last phase |
| Boat.CompletedPhasesExceedThree | scenes/boat_scene.py:145-150 | in phase 3 with its goal met, k further checks leave the phase at 3 and raise the completed count from any n to exactly n + k, so it passes 3 |
| Boat.FourthCompletionAtFinish | scenes/boat_scene.py:145-150 | ten coins at the finish line turn three completed phases into four on one check |
| Boat.BoatScene.constructor | scenes/boat_scene.py:9-52 | the scene is ready exactly when the current profile exists and is calibrated; a ready scene starts at (100, 570) at rest, in phase 1, on a fresh course, with no collected coin |
| Boat.BoatScene.GetTargetY | scenes/boat_scene.py:109-120 | returns the target of `AimAt` and records its index |
| Boat.BoatScene.UpdateBoatPhysics | scenes/boat_scene.py:192-229 | the new position and speed are those of `PhysicsStep` |
| Boat.BoatScene.CheckCoinCollision | scenes/boat_scene.py:122-133 | the coins become `CollectAll` of the old coins at the boat's rectangle, and the counter rises by the number of coins caught |
| Boat.BoatScene.CheckPhaseCompletion | scenes/boat_scene.py:136-150 | the phase and completed count become those of `PhaseStep` |
| Boat.BoatScene.Steer | scenes/boat_scene.py:159-179 | effort, target, lift and physics step, in that order, keeping the scene's invariant |
| Boat.BoatScene.Score | scenes/boat_scene.py:182-185 | coin pass, then phase check, keeping the collected counter equal to the count of collected coins |
| Boat.BoatScene.Update | scenes/boat_scene.py:157-190 | on a ready scene, one whole frame: the invariant holds afterwards (height within its limits, lift not negative, phase in 1..3, the index inside the path, the counter equal to the collected coins); the world map follows once x exceeds 1580; an unready scene fails; a switch of scenes leaves the game running as it was |
| Boat.BoatScene.HandleKey | scenes/boat_scene.py:152-155 | ESC switches to the world map; other keys change nothing; a switch of scenes leaves the game running as it was |
| Boat.BoatScene.HandleEvent | scenes/boat_scene.py:152-155 | a key press of ESC switches to the world map; any other event changes nothing; a switch of scenes leaves the game running as it was |

## Left out

- Threads: `threading.Thread`, `start` and `stop` are not modelled (input_manager.py:14, 27, 34-42). The model covers single audio callbacks and single camera frames.
- The `_listen_mic` stream loop and `sd.sleep` are not modelled. Only the sentinel written when the stream fails is modelled, as `MicUnavailable`. The `_process_camera` read loop and `cv2.waitKey` are not modelled either (device I/O).
- The status message of `_audio_callback` is dropped.
- The numpy RMS of a block is not modelled. It is an input to `AudioCallback` and may be any real.
- OpenCV processing is not modelled (grayscale, blur, frame difference, threshold, dilation, contour finding and contour area). Those calls produce the contour areas and the frame, which are inputs. The source takes the frame area from the colour frame; the model takes it from the grayscale frame, which has the same height and width.
- `get_camera_frame` is not modelled: it is a live device read.
- Floating point: every quantity is a `real`. IEEE rounding, and NumPy's float types, are not modelled.
- `math.sin` and `random.randint` are function parameters. `jitter` is not restricted to [-40, 40]. The coin-height bounds hold for any value.
- `pygame.Rect` is modelled as an integer rectangle whose float coordinates are truncated toward zero. `colliderect` is modelled as strict overlap.
- Rendering is not modelled: every `draw`, `_draw_breath_control`, `_draw_game_info`, `_cv2_to_pygame`, fonts, colours, images and `print`.
- The calibration instruction text is a `Message` value, not a string. The unused `countdown` field of CalibrationScene is dropped. So are LoginScene's fixed `message` and TestScene's `colors`.
- JSON file I/O is not modelled (`open`, `json.dump`, `json.load`, `os.path.exists`). A file is either a readable record or `Corrupt`.
- The dictionaries `calibration_data` and `progress` are flattened into record fields. A file whose data lacks keys, or has extra keys (`__dict__.update` accepts anything), is not modelled.
- Boat.BoatScene.constructor: it reads `maxBreathRms` directly. The source's `.get('max_breath_rms', 1.0)` fallback for a key missing from a loaded file is therefore not modelled.
- Wall-clock time: `time.time()` is the parameter `now` of `CalibrationScene.HandleKey` and `Update`.
- `main.py` is not part of this model. Its event pump and frame loop are plumbing.
- `settings.py` is not part of this model. Its values are constants in the modules: the 1280×720 screen.
- `scenes/base_scene.py` is not part of this model. It is an interface with no behaviour.
- `scenes/world_map_scene.py` is not part of this model. It is click hit-testing and rendering.
- The event list: each scene's `handle_events` loops over a list of events. The model handles one event per `HandleEvent` call, and a list is handled by calling it once per event.
- Scene objects in the table are handles that record only their kind. The scene classes in the other modules hold the scenes' state. `SceneManager` does not run their constructors, except the BoatScene's switch to the LoginScene, which `Construct` models.
- Calling `update` on a BoatScene whose constructor returned early raises `AttributeError` in the source. The model returns `failed`.
- The calls that raise in LoginScene and CalibrationScene are modelled the same way: they return `failed`.
- `str.isalnum` is modelled for ASCII letters and digits only. Unicode letters and digits are not covered.
- `GetMotionDetected` and `GetCurrentProfile` are plain reads with nothing to state beyond their value.
- TestScene's and LoginScene's `update` do nothing and are not modelled.
- The input manager's motion threshold is a `real`; TestScene's threshold is an integer, converted when it is passed on.
