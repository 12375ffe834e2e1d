# BetterReplays in Dafny

BetterReplays is a game plugin that takes over the replay camera after a goal. This project models its two core parts and proves properties of them.
- **The replay camera handler** (`BetterReplaysHandler`). It follows the goal scorer in first or third person. The C key switches modes. The scroll wheel zooms the third-person camera. While the right mouse button is held, the camera orbits ("free look"): it blends in over half a second and turns with the mouse. Until the goal scorer, the camera and the goal have all been set, a frame does nothing but warn, on every 300th frame. When the camera gets too close to the scorer's head, it is pushed back.
- **The configuration record** (`BetterReplaysConfig`). This is a table of 20 float settings, each with a range, a default and a "missing" sentinel, plus two key bindings and a free-look mode. Two repair passes fix it up after loading:
  - one regenerates missing fields;
  - one replaces out-of-range and invalid values.

  There are also the key-binding queries, the order of steps in LoadConfig, and the line-by-line transformer that writes comments into the saved JSON.

Files:
- `wrappers.dfy`: `Option`.
- `unity_math.dfy`: the parts of Unity's maths the camera uses, over exact reals.
  - `Clamp`, `Clamp01`, `Lerp` (which clamps its parameter), `Abs`, `Vector3`.
  - Rotations are symbolic terms.
  - Euler angles, quaternion-times-vector, `normalized` and `magnitude` are the fields of an `Engine` value passed in.
- `camera_rules.dfy`: one call of `Update`, as the function `Step` of the handler's state and of what the frame observes (inputs and transforms). Also the lerp-speed curve, the height multiplier, the push-back and the transition timer, and the lemmas about them.
- `replays_handler.dfy`: the class `BetterReplaysHandler`. It has the handler's fields, and methods `Update`, `HandleFirstPersonCamera`, `HandleThirdPersonCamera`, `Start` and the four setters. Each method is proved to change the fields exactly as the rule functions say. There are also the pure versions of the setters, and the lemma that the camera is placed on whichever of SetGoalScorer and SetReplayCamera comes second.
- `config.dfy`: the rule table, and the class `BetterReplaysConfig` with `CheckForMissingFields`, `ValidateAndCorrect`, `SaveConfig` and `LoadConfig`. Each has a specification function (`Filled`, `Validated`, `LoadSaves`) and lemmas about it.
- `config_comments.dfy`: `AddJsonComments`, with the table of comments and the proof that removing the inserted lines gives back the input lines.
- `text.dfy`: the .NET string operations used (`Trim`, `StartsWith`, `Split`, `Join`, `OrdinalIgnoreCase` equality).

Modelling choices:
- Frame inputs. A frame (`Frame`) carries:
  - the key and mouse events, the scroll and mouse deltas, `Time.deltaTime` and `Time.frameCount`;
  - the replay camera's pose when the frame starts;
  - the scorer's PlayerCamera transform and head position. Each is `None` where a link on the path to it is null; that is the case the source catches as a `NullReferenceException`.
- What a frame does outside the handler's fields is returned as a `FrameOutput`: the warnings of the null guard, the `SetTarget` call, what is written to the camera's transform, and whether the scorer's mesh was hidden or shown.
- Config fields. In the class, the 20 float fields the source reaches by reflection are one record field, `floats`. `Get(fs, k)` and `With(fs, k, v)` are the reflective read and write of the field that rule `k` names.
- Saving. `SaveConfig` appends the document it would write to `savedDocuments`.
- Key names. `Enum.Parse(typeof(Key), s, true)` is a parameter `parse: string -> Option<Key>`.
- What the handler does and does not do:
  - The zoom is clamped to [0.2, 16].
  - The handler uses its own constants, the C key and the right mouse button. It never reads the configuration, persists no camera state, and has no hold/toggle mode.
  - In third person outside free look, only the camera's position is written. Its rotation is left to the ReplayCamera's target.

## Model

| member | source | states |
|---|---|---|
| CameraRules.MissingWarnings | src/BetterReplaysHandler.cs:65-74 | a warning for each missing object, and only on frames whose count is a multiple of 300 |
| CameraRules.NotReadyFrameOnlyWarns | src/BetterReplaysHandler.cs:65-74 | a frame with the scorer, camera or goal missing leaves the state untouched; sets no target and writes no pose; warns exactly when frameCount % 300 == 0 |
| CameraRules.ZoomStep | src/BetterReplaysHandler.cs:83-92 | no scroll leaves the zoom; any scroll lands in [0.2, 16]; a positive scroll never zooms out and a negative one never zooms in; the range is preserved |
| CameraRules.WrapPitch | src/BetterReplaysHandler.cs:103-107 | Euler x in [0, 360) becomes a pitch in (-180, 180]: unchanged up to 180, minus 360 above |
| CameraRules.CKeyTogglesMode | src/BetterReplaysHandler.cs:76-80 | once everything is set, the frame ends in the other mode exactly when C was pressed |
| CameraRules.ReadyFrameKeepsInputs | src/BetterReplaysHandler.cs:76-223 | the camera modes keep the mode, the zoom and the free-look flag the inputs set; a transition is never started by them |
| CameraRules.ZoomChangesOnlyOnThirdPersonScroll | src/BetterReplaysHandler.cs:83-92 | the zoom changes only on a ready frame in third person with a non-zero scroll, and then by ZoomStep |
| CameraRules.StepKeepsZoomInRange | src/BetterReplaysHandler.cs:83-92 | a frame keeps the zoom in [0.2, 16] |
| CameraRules.RunKeepsZoomInRange | src/BetterReplaysHandler.cs:83-92 | any run of frames keeps the zoom in [0.2, 16] |
| CameraRules.RightButtonPressAndRelease | src/BetterReplaysHandler.cs:94-116 | a press enters free look and starts the transition at time 0 from the camera's rotation, with yaw from Euler y and wrapped pitch from Euler x; a release, checked after the press, leaves free look and the transition off; neither keeps the flag |
| CameraRules.SelectTarget | src/BetterReplaysHandler.cs:118-154 | first person targets null; third person in free look or after the goal targets the scorer's camera (if present); otherwise the goal (if it has a transform) |
| CameraRules.TargetOfReadyFrame | src/BetterReplaysHandler.cs:118-154 | a ReplayCamera frame makes SelectTarget's call; any other camera ends the frame with the inputs applied and no output |
| CameraRules.TrackPlayer | src/BetterReplaysHandler.cs:173-184 | the head position is recorded; the smoothed position snaps to it when the last position is zero (by Unity's approximate vector equality), else moves 0.3 of the way; no other field changes |
| CameraRules.FirstObservationSnaps | src/BetterReplaysHandler.cs:173-184 | in a third-person frame the head position is recorded, and snapped to on its first observation |
| CameraRules.HeightMultiplier | src/BetterReplaysHandler.cs:188-190 | the multiplier lies in [0.5, 1], is 1 up to zoom 1 and 0.5 from zoom 16 |
| CameraRules.HeightMultiplierDecreasing | src/BetterReplaysHandler.cs:188-190 | the camera gets no higher as the zoom grows |
| CameraRules.TurnFreeLook | src/BetterReplaysHandler.cs:231-234 | after the mouse turn the pitch lies in the given clamp range; only yaw and pitch change |
| CameraRules.FreeLookPitchIsClamped | src/BetterReplaysHandler.cs:229-237 | after a free-look frame the pitch lies in [-90, 90] in first person and [-20, 80] in third person |
| CameraRules.LerpSpeed | src/BetterReplaysHandler.cs:258-268 | the speed lies in [0.01, 0.1]; it is 0.1 at or below zoom 0.2, 0.02 at zoom 1 and 0.01 from zoom 16 |
| CameraRules.LerpSpeedPiecewiseLinear | src/BetterReplaysHandler.cs:258-268 | the speed is 0.02 + 0.1 (1 - zoom) on [0.2, 1] and 0.02 - (zoom - 1)/1500 on [1, 16] |
| CameraRules.LerpSpeedContinuousAtDefault | src/BetterReplaysHandler.cs:258-268 | the speed differs from 0.02 by at most 0.1 times the distance of the zoom from 1, so the two pieces meet at 1 |
| CameraRules.LerpSpeedDecreasing | src/BetterReplaysHandler.cs:258-268 | a larger zoom never gives a faster follow |
| CameraRules.TransitionFraction | src/BetterReplaysHandler.cs:290-294 | the fraction lies in [0, 1] and reaches 1 exactly when 0.5 s have accumulated |
| CameraRules.TransitionTimer | src/BetterReplaysHandler.cs:290-303 | each transitioning frame adds deltaTime to the timer; it blends from the original rotation by the fraction; the transition stays on exactly while the time is below 0.5 s |
| CameraRules.TransitionOver | src/BetterReplaysHandler.cs:287-307 | past the transition the camera is turned straight to the look rotation and the timer stops |
| CameraRules.NoPushBackOutsideRange | src/BetterReplaysHandler.cs:313-325 | zoom below 2, or a camera already 2 or more from the head: no push-back |
| CameraRules.PushBackAlongRay | src/BetterReplaysHandler.cs:313-325 | along the ray from the head, a camera at distance d < 2 moves to d + 0.01 (2 - d): never closer and still below 2 |
| CameraRules.FirstPersonStep | src/BetterReplaysHandler.cs:225-252 | the camera is put at the scorer's eyes and the scorer is hidden; in free look its rotation is the turned yaw and pitch, with the pitch in [-90, 90]; otherwise no field changes; only yaw and pitch ever change |
| CameraRules.PushBack | src/BetterReplaysHandler.cs:313-325 | the camera moves only when the zoom is at least 2 and the camera is closer than 2 to the head |
| CameraRules.OrbitStep | src/BetterReplaysHandler.cs:272-307 | the pitch ends in [-20, 80]; only yaw, pitch and the transition fields change; while transitioning the timer grows by deltaTime and the transition stays on exactly while it is below 0.5 s; otherwise the timer is untouched; a position and rotation are written |
| CameraRules.ThirdPersonStep | src/BetterReplaysHandler.cs:254-336 | in free look it is the orbit; otherwise no field changes, only the position is written and the scorer is shown |
| CameraRules.FollowScorer | src/BetterReplaysHandler.cs:156-222 | a null PlayerCamera transform, or a null head in third person, ends the frame with no change; the setters' fields, the mode, the free-look flag and the zoom are kept |
| CameraRules.Step | src/BetterReplaysHandler.cs:63-223 | a frame never changes the scorer, camera, goal, goal-scored flag or sensitivity |
| CameraRules.Run | src/BetterReplaysHandler.cs:63-223 | no run of frames changes what the setters and Start installed |
| ReplaysHandler.SetScorer | src/BetterReplaysHandler.cs:414-463 | only the scorer changes, to ChosenScorer's choice; a null scorer changes nothing; the camera is placed, at InitialPose, exactly when a scorer is set, a camera is set and the scorer's PlayerCamera transform exists |
| ReplaysHandler.SetCamera | src/BetterReplaysHandler.cs:465-490 | only the camera changes; a null camera changes nothing; the camera is placed, at InitialPose, exactly when a scorer is already set and its PlayerCamera transform exists |
| ReplaysHandler.BetterReplaysHandler.Update | src/BetterReplaysHandler.cs:63-223 | the fields and the frame's output are those of Step; the zoom stays in range |
| ReplaysHandler.BetterReplaysHandler.NullWarnings | src/BetterReplaysHandler.cs:67-73 | the warnings the null guard logs for the current fields |
| ReplaysHandler.BetterReplaysHandler.HandleModeAndZoom | src/BetterReplaysHandler.cs:76-92 | the fields after the C key and the scroll wheel |
| ReplaysHandler.BetterReplaysHandler.HandleRightButton | src/BetterReplaysHandler.cs:94-116 | the fields after the right button's press and release |
| ReplaysHandler.BetterReplaysHandler.FollowGoalScorer | src/BetterReplaysHandler.cs:156-222 | the fields and output of the rest of the frame, aborting on a null scorer transform |
| ReplaysHandler.BetterReplaysHandler.TrackHead | src/BetterReplaysHandler.cs:173-184 | the fields after the head smoothing, as TrackPlayer |
| ReplaysHandler.BetterReplaysHandler.HandleFirstPersonCamera | src/BetterReplaysHandler.cs:225-252 | at the scorer's eyes: turned by the mouse in free look, else eased 0.1 towards the scorer's rotation; the scorer is hidden |
| ReplaysHandler.BetterReplaysHandler.Turn | src/BetterReplaysHandler.cs:274-277 | the fields after the mouse turn, as TurnFreeLook |
| ReplaysHandler.BetterReplaysHandler.HandleThirdPersonCamera | src/BetterReplaysHandler.cs:254-336 | the orbit in free look; else the camera eased towards the target at the zoom's speed, then pushed back; the scorer is shown |
| ReplaysHandler.BetterReplaysHandler.Orbit | src/BetterReplaysHandler.cs:279-307 | the fields and pose of the free-look orbit and its transition, as OrbitStep |
| ReplaysHandler.BetterReplaysHandler.constructor | src/BetterReplaysHandler.cs:32-52 | the field initialisers: nothing set, third person, zoom 1 |
| ReplaysHandler.BetterReplaysHandler.Start | src/BetterReplaysHandler.cs:54-61 | only the look sensitivity changes |
| ReplaysHandler.BetterReplaysHandler.SetGoal | src/BetterReplaysHandler.cs:409-412 | only the goal changes |
| ReplaysHandler.BetterReplaysHandler.SetGoalScored | src/BetterReplaysHandler.cs:492-499 | only the goal-scored flag changes |
| ReplaysHandler.FindReplayPlayer | src/BetterReplaysHandler.cs:422-449 | the index of the first replay player with the same user name and number; none exactly when no player matches |
| ReplaysHandler.ChosenScorer | src/BetterReplaysHandler.cs:414-463 | the scorer changes only to a matching replay player; a match is always taken; with no match the previous scorer stays |
| ReplaysHandler.BetterReplaysHandler.SetGoalScorer | src/BetterReplaysHandler.cs:414-463 | a null scorer changes nothing; else the search loop installs the first match, and the camera is placed when a camera is set |
| ReplaysHandler.InitialPose | src/BetterReplaysHandler.cs:339-361 | the camera is put 3 behind the scorer's PlayerCamera along its forward direction, with its rotation; nothing when that transform is null |
| ReplaysHandler.BetterReplaysHandler.InitializeCameraPosition | src/BetterReplaysHandler.cs:339-361 | InitialPose when scorer and camera are set, nothing otherwise |
| ReplaysHandler.BetterReplaysHandler.SetReplayCamera | src/BetterReplaysHandler.cs:465-490 | a null camera changes nothing; else it is set, and placed behind a scorer already set |
| ReplaysHandler.NullSettersChangeNothing | src/BetterReplaysHandler.cs:414-471 | null arguments to SetGoalScorer and SetReplayCamera change nothing and place nothing |
| ReplaysHandler.SetupOrderDoesNotMatter | src/BetterReplaysHandler.cs:414-490 | whichever of SetGoalScorer and SetReplayCamera comes second places the camera, the first does not, and both orders end in the same state |
| ReplaysHandler.UnmatchedScorerIsNotSet | src/BetterReplaysHandler.cs:422-454 | a scorer with no matching replay player leaves a missing scorer missing and places nothing |
| ReplaysConfig.RuleTableConsistent | src/BetterReplaysConfig.cs:31-76 | 20 rules; every default lies in its range; every field initialiser is its rule's sentinel; every value within 0.001 of a sentinel lies below the range |
| ReplaysConfig.Validated | src/BetterReplaysConfig.cs:311-385 | each of the three strings is kept when valid and replaced by "c", "rightButton" or "hold" when not |
| ReplaysConfig.ValidatedFloat | src/BetterReplaysConfig.cs:315-329 | for finite values, every float ends in range: kept when it was in range, the default otherwise |
| ReplaysConfig.ValidatedStringsAreValid | src/BetterReplaysConfig.cs:331-377 | after validation the bindings and the mode are valid (the toggle key when "c" parses) |
| ReplaysConfig.ValidatedIsIdempotent | src/BetterReplaysConfig.cs:311-385 | a second validation changes nothing |
| ReplaysConfig.ValidatedNeedsNoSave | src/BetterReplaysConfig.cs:379-384 | a validated record asks for no save (when "c" parses) |
| ReplaysConfig.SaveIffCorrected | src/BetterReplaysConfig.cs:311-385 | validation asks for a save exactly when it changes the record (when "c" parses) |
| ReplaysConfig.UnparsableDefaultKeyIsSavedUnchanged | src/BetterReplaysConfig.cs:332-345 | if "c" were not a key name, the default binding would be rewritten unchanged and saved on every load |
| ReplaysConfig.FreshConfigValidatesToDefaults | src/BetterReplaysConfig.cs:57-80 | a fresh record validates to the defaults with "c", "rightButton" and "hold", and asks for a save |
| ReplaysConfig.ToggleModeOnlyWhenExact | src/BetterReplaysConfig.cs:362-377 | the mode is compared case-sensitively: validation gives "toggle" exactly when the record says "toggle", and "hold" for every other value ("Toggle" included) |
| ReplaysConfig.Filled | src/BetterReplaysConfig.cs:277-301 | null or empty strings become "c", "rightButton" and "hold"; others are kept |
| ReplaysConfig.FilledFloatAt | src/BetterReplaysConfig.cs:261-275 | a float becomes its default exactly when it is within 0.001 of its sentinel |
| ReplaysConfig.MissingFieldCheckIsSubsumed | src/BetterReplaysConfig.cs:257-385 | validation after the missing-field check gives the same record as validation alone |
| ReplaysConfig.LoadedConfigIsValid | src/BetterReplaysConfig.cs:85-114 | for finite float values and when "c" parses, whatever the file holds, the loaded record satisfies every rule |
| ReplaysConfig.NoFileLoadsDefaults | src/BetterReplaysConfig.cs:85-114 | without a file the defaults are loaded, after saving the fresh record and then the defaults |
| ReplaysConfig.BetterReplaysConfig.constructor | src/BetterReplaysConfig.cs:57-80 | every field at its initialiser, nothing saved |
| ReplaysConfig.BetterReplaysConfig.Populate | src/BetterReplaysConfig.cs:91-97 | the parsed record replaces the fields |
| ReplaysConfig.BetterReplaysConfig.SaveConfig | src/BetterReplaysConfig.cs:150-168 | the current record is saved and nothing changes |
| ReplaysConfig.BetterReplaysConfig.CheckForMissingFields | src/BetterReplaysConfig.cs:257-309 | the fields become Filled of the old ones; saved once, exactly when something was missing |
| ReplaysConfig.BetterReplaysConfig.ValidateAndCorrect | src/BetterReplaysConfig.cs:311-385 | the fields become Validated of the old ones; saved once, exactly when something was corrected |
| ReplaysConfig.BetterReplaysConfig.LoadConfig | src/BetterReplaysConfig.cs:85-114 | the loaded record is the validation of the file's record, and the saves are made in order |
| ReplaysConfig.IsMouseButtonName | src/BetterReplaysConfig.cs:399-403 | the binding equals, ignoring case, one of leftButton, rightButton, middleButton, forwardButton and backButton |
| ReplaysConfig.MouseButtonNameIgnoresCase | src/BetterReplaysConfig.cs:399-403 | two names that differ only in the case of their letters are both mouse buttons or both not |
| ReplaysConfig.IsValidKeyBinding | src/BetterReplaysConfig.cs:387-405 | a null or empty binding is invalid; a mouse button name, or a non-empty name that parses as a key, is valid; a valid name that does not parse is a mouse button |
| ReplaysConfig.BetterReplaysConfig.IsToggleCameraMouseButton | src/BetterReplaysConfig.cs:425-432 | a mouse-button toggle binding is valid under any key parser; the `requires toggleCameraKey.Some?` stands for the null field on which the source throws at line 427, which no caller reaches because LoadConfig always fills the strings |
| ReplaysConfig.BetterReplaysConfig.IsFreeLookMouseButton | src/BetterReplaysConfig.cs:434-441 | a mouse-button free-look binding is valid under any key parser; the `requires freeLookKey.Some?` stands for the null field on which the source throws at line 436, which no caller reaches |
| ReplaysConfig.BetterReplaysConfig.GetToggleCameraKey | src/BetterReplaysConfig.cs:407-423 | no key for a mouse binding, the parsed key for a name that parses, and C for one that does not; the `requires` stands for the null field (line 427), which no caller reaches |
| ReplaysConfig.BetterReplaysConfig.GetFreeLookKey | src/BetterReplaysConfig.cs:443-459 | no key for a mouse binding, the parsed key for a name that parses, and no key for one that does not; the `requires` stands for the null field (line 436), which no caller reaches |
| ReplaysConfig.BetterReplaysConfig.IsFreeLookToggle | src/BetterReplaysConfig.cs:461-464 | toggling is a valid mode, and a valid mode that does not toggle is "hold"; the `requires` stands for the null field on which the source throws at line 463, which no caller reaches |
| ReplaysConfig.ValidBindingsNeverFallBack | src/BetterReplaysConfig.cs:407-459 | for valid bindings, the queries give None for a mouse button and the parsed key otherwise |
| ReplaysConfig.KeyQueriesDifferOnlyInFallback | src/BetterReplaysConfig.cs:407-459 | for independent bindings, an unparsable keyboard name gives C for the camera toggle and no key for free look; when both bindings are one name, the queries agree exactly when it is a mouse button or parses |
| ReplaysConfig.ValidatedModeIsHoldOrToggle | src/BetterReplaysConfig.cs:461-464 | after validation the mode is "hold" or "toggle", and IsFreeLookToggle holds exactly for "toggle" |
| ConfigComments.Render | src/BetterReplaysConfig.cs:176-248 | every inserted line is blank or a `//` comment |
| ConfigComments.FirstMatch | src/BetterReplaysConfig.cs:182-248 | the first table row whose quoted key starts the trimmed line, as the chain of else-ifs tries them |
| ConfigComments.AddJsonComments | src/BetterReplaysConfig.cs:170-255 | the result is the opening brace, the header, each inner line after its comment, and the closing brace, joined by line feeds |
| ConfigComments.AddComments | src/BetterReplaysConfig.cs:170-255 | the loop builds that text for any comment table |
| ConfigComments.StrippedOutputIsInput | src/BetterReplaysConfig.cs:170-255 | removing the inserted lines from the output gives back the input's lines |
| ConfigComments.CommentsCanBeStripped | src/BetterReplaysConfig.cs:170-255 | joined again, the stripped lines are the original JSON text |
| ConfigComments.StripAnnotated | src/BetterReplaysConfig.cs:176-252 | only inserted lines are added, and the JSON lines keep their order |
| ConfigComments.CommentForKeyLine | src/BetterReplaysConfig.cs:182-248 | a line whose first recognised key is row i gets row i's comment |
| ConfigComments.UnrecognisedLineGetsNoComment | src/BetterReplaysConfig.cs:176-252 | a line with no recognised key gets nothing inserted before it |

## Left out

- Floating point: every `float` is an exact `real`. Single-precision rounding is not modelled. Neither is the 1e-5 magnitude below which Unity's `normalized` returns zero, because `normalized` is a parameter.
- The engine's quaternion and vector maths: `eulerAngles`, quaternion-times-vector, `normalized` and `magnitude` are uninterpreted functions of an `Engine` argument. `Quaternion.Euler`, `LookRotation` and `Lerp` build symbolic rotations.
- Unity input, time and settings. `Keyboard.current`, `Mouse.current`, `Time.deltaTime`, `Time.frameCount` and the replay camera's pose are fields of the frame. `SettingsManager.LookSensitivity` is the argument of `Start`. `Cursor.lockState`, the field of view and `usePhysicalProperties` are not modelled.
- `Destroy(this, 10)` in `Start` is not modelled, because it is a runtime timer.
- Logging is not modelled; the null guard's warnings are kept as output.
- The scorer's mesh: hiding and showing is recorded as a call in the frame output. The `SetActive` calls and the name-tag `alpha` save and restore are left out, together with the HarmonyLib `Traverse` lookup in `SetGoalScorer` that finds the name tags.
- Player numbers are compared as integers. The source compares their decimal strings, which is the same comparison.
- The `try`/`catch` blocks of `HandleFirstPersonCamera` and `HandleThirdPersonCamera` are not modelled, because with every link present nothing in them can throw.
- `ForceRegenerate`, `HasConfigChanged`, and the file and JSON library calls inside `LoadConfig` and `SaveConfig` are file-system and library code. `LoadConfig` receives the record the JSON library produced (`ConfigFile`). `SaveConfig` records the document.
- `configPath` and `lastConfigWriteTime` are not modelled: their only users are the file-system calls.
- The plugin's Harmony patches and coroutines (`src/BetterReplays*Plugin*`) are outside the core; the model sees them only as calls to the setters. The older copies of the plugin at the repository root are not part of this model.
- Unicode: case-insensitive comparison folds ASCII letters only, and `Trim` removes ASCII white space only. `StartsWith` in the comment writer is modelled as an ordinal prefix test. The source calls the one-argument, culture-sensitive overload (src/BetterReplaysConfig.cs:182-247); where a culture-sensitive comparison differs from an ordinal one (characters it ignores, for instance), the model follows the ordinal test.
- CommentsCanBeStripped: the round trip is stated on lines. The input must already be the `{ … }` layout the serializer writes, with no comment or blank interior line. The reverse direction is not proved: that re-splitting the commented text gives back its output lines. It would need every comment text to be free of line feeds, which holds for the table but is not proved.
- SetGoalScorer and SetupOrderDoesNotMatter: the model assumes that `Traverse` finds the `usernameText` and `numberText` fields. If one is missing, reading its `alpha` (src/BetterReplaysHandler.cs:440-441) throws after the scorer is set and before `InitializeCameraPosition`. The scorer then stays set and the camera is not placed, so this exception path is not modelled.
- LoadedConfigIsValid and ValidatedFloat: these hold for finite values only. A JSON `NaN` in a float field fails both the sentinel test (src/BetterReplaysConfig.cs:267) and the range test (src/BetterReplaysConfig.cs:321). Such a record therefore loads with the non-finite value and nothing is saved. NaN and the infinities are not modelled.
- ValidatedNeedsNoSave, SaveIffCorrected and the other lemmas marked "when "c" parses" assume that `Enum.Parse` accepts "c". That holds for Unity's `Key` enum, whose definition is not part of this model.
