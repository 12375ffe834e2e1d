/**
 * The replay camera handler as an object: its fields are the fields of
 * BetterReplaysHandler, Update changes them frame by frame as the per-frame
 * rules of CameraRules say, and the setters install the goal scorer, the
 * camera and the goal, placing the camera behind the scorer once both are set.
 */
module ReplaysHandler {
  import opened Wrappers
  import opened UnityMath
  import opened CameraRules

  // ---------------------------------------------------------------- rules of the setters

  /** Players are matched as SetGoalScorer matches them: by user name and by number. */
  predicate SamePlayer(a: Player, b: Player) {
    a.username == b.username && a.number == b.number
  }

  /** The index of the first replay player that matches `wanted`, if any. */
  function FindReplayPlayer(players: seq<Player>, wanted: Player): (r: Option<nat>)
    ensures r.Some? ==> r.value < |players| && SamePlayer(players[r.value], wanted)
    ensures r.Some? ==> forall j :: 0 <= j < r.value ==> !SamePlayer(players[j], wanted)
    ensures r.None? <==> forall j :: 0 <= j < |players| ==> !SamePlayer(players[j], wanted)
    decreases |players|
  {
    if |players| == 0 then None
    else if SamePlayer(players[0], wanted) then Some(0)
    else
      match FindReplayPlayer(players[1..], wanted)
      case None => None
      case Some(i) => Some(i + 1)
  }

  /** The goal scorer after SetGoalScorer: the matching replay player, or the previous one when none matches. */
  function ChosenScorer(current: Option<Player>, players: seq<Player>, wanted: Player): (r: Option<Player>)
    ensures r != current ==> r.Some? && r.value in players && SamePlayer(r.value, wanted)
    ensures (exists j :: 0 <= j < |players| && SamePlayer(players[j], wanted)) ==> r.Some? && SamePlayer(r.value, wanted)
    ensures (forall j :: 0 <= j < |players| ==> !SamePlayer(players[j], wanted)) ==> r == current
  {
    match FindReplayPlayer(players, wanted)
    case Some(i) => Some(players[i])
    case None => current
  }

  /**
   * InitializeCameraPosition: the camera at 3 behind the scorer's PlayerCamera
   * along its forward direction, with its rotation; nothing when that
   * transform is null.
   */
  function InitialPose(scorerView: Option<View>): (r: PoseWrite)
    ensures r.NoWrite? <==> scorerView.None?
    ensures r.PositionAndRotation? || r.NoWrite?
    ensures r.PositionAndRotation? ==>
      Add(r.position, Scale(scorerView.value.forward, InitialCameraDistance)) == scorerView.value.position
      && r.rotation == scorerView.value.rotation
  {
    match scorerView
    case None => NoWrite
    case Some(view) => PositionAndRotation(Sub(view.position, Scale(view.forward, InitialCameraDistance)), view.rotation)
  }

  /** The state after a setter, and what it writes to the camera's transform. */
  datatype SetupResult = SetupResult(state: CameraState, init: PoseWrite)

  /** SetGoalScorer on a state: the camera is placed once a scorer and a camera are both set. */
  function SetScorer(s: CameraState, wanted: Option<Player>, players: seq<Player>, scorerView: Option<View>): (r: SetupResult)
    ensures r.state == s.(scorer := r.state.scorer)
    ensures wanted.None? ==> r == SetupResult(s, NoWrite)
    ensures wanted.Some? ==> r.state.scorer == ChosenScorer(s.scorer, players, wanted.value)
    ensures r.init != NoWrite <==> wanted.Some? && r.state.scorer.Some? && s.camera.Some? && scorerView.Some?
    ensures r.init != NoWrite ==> r.init == InitialPose(scorerView)
  {
    if wanted.None? then SetupResult(s, NoWrite)
    else
      var next := s.(scorer := ChosenScorer(s.scorer, players, wanted.value));
      SetupResult(next, if next.scorer.Some? && next.camera.Some? then InitialPose(scorerView) else NoWrite)
  }

  /** SetReplayCamera on a state: the camera is placed when a scorer is already set. */
  function SetCamera(s: CameraState, c: Option<Camera>, scorerView: Option<View>): (r: SetupResult)
    ensures r.state == s.(camera := r.state.camera)
    ensures c.None? ==> r == SetupResult(s, NoWrite)
    ensures c.Some? ==> r.state.camera == c
    ensures r.init != NoWrite <==> c.Some? && s.scorer.Some? && scorerView.Some?
    ensures r.init != NoWrite ==> r.init == InitialPose(scorerView)
  {
    if c.None? then SetupResult(s, NoWrite)
    else
      var next := s.(camera := c);
      SetupResult(next, if next.scorer.Some? then InitialPose(scorerView) else NoWrite)
  }

  /** Null arguments are rejected: the setters then change nothing and write nothing. */
  lemma NullSettersChangeNothing(s: CameraState, players: seq<Player>, scorerView: Option<View>)
    ensures SetScorer(s, None, players, scorerView) == SetupResult(s, NoWrite)
    ensures SetCamera(s, None, scorerView) == SetupResult(s, NoWrite)
  {
  }

  /**
   * Whichever of SetGoalScorer and SetReplayCamera comes second places the
   * camera, and the first does not; both orders end in the same state.
   */
  lemma SetupOrderDoesNotMatter(s: CameraState, wanted: Player, players: seq<Player>, c: Camera, first: Option<View>, second: Option<View>)
    requires s.scorer.None? && s.camera.None?
    requires exists j :: 0 <= j < |players| && SamePlayer(players[j], wanted)
    ensures var a := SetScorer(s, Some(wanted), players, first);
      var b := SetCamera(a.state, Some(c), second);
      a.init == NoWrite && b.init == InitialPose(second)
    ensures var a := SetCamera(s, Some(c), first);
      var b := SetScorer(a.state, Some(wanted), players, second);
      a.init == NoWrite && b.init == InitialPose(second)
    ensures SetCamera(SetScorer(s, Some(wanted), players, first).state, Some(c), second).state
      == SetScorer(SetCamera(s, Some(c), first).state, Some(wanted), players, second).state
  {
    var chosen := ChosenScorer(None, players, wanted);
    assert chosen.Some?;
  }

  /** A scorer with no replay player to match leaves a missing scorer missing, and the camera is not placed. */
  lemma UnmatchedScorerIsNotSet(s: CameraState, wanted: Player, players: seq<Player>, scorerView: Option<View>)
    requires s.scorer.None?
    requires forall j :: 0 <= j < |players| ==> !SamePlayer(players[j], wanted)
    ensures SetScorer(s, Some(wanted), players, scorerView) == SetupResult(s, NoWrite)
  {
  }

  // ---------------------------------------------------------------- the handler

  class BetterReplaysHandler {
    var goalScorer: Option<Player>
    var camera: Option<Camera>
    var goalScored: bool
    var goal: Option<Goal>
    var isFirstPerson: bool
    var isFreeLook: bool
    /** freeLookRotation.x */
    var yaw: real
    /** freeLookRotation.y */
    var pitch: real
    var originalRotation: Rotation
    var lookSensitivity: real
    var isTransitioningToFreeLook: bool
    var freeLookTransitionTime: real
    var lastPlayerPosition: Vec3
    var smoothedPlayerPosition: Vec3
    var currentZoomDistance: real

    /** The fields, as the value the per-frame rules work on. */
    function State(): CameraState
      reads this
    {
      CameraState(goalScorer, camera, goal, goalScored, isFirstPerson, isFreeLook, yaw, pitch,
                  originalRotation, lookSensitivity, isTransitioningToFreeLook, freeLookTransitionTime,
                  lastPlayerPosition, smoothedPlayerPosition, currentZoomDistance)
    }

    /** The zoom stays within [0.2, 16]. */
    predicate Valid()
      reads this
    {
      ZoomInRange(currentZoomDistance)
    }

    /** The field initialisers. */
    constructor ()
      ensures State() == InitialState && Valid()
    {
      goalScorer := None;
      camera := None;
      goalScored := false;
      goal := None;
      isFirstPerson := false;
      isFreeLook := false;
      yaw := 0.0;
      pitch := 0.0;
      originalRotation := Unset;
      lookSensitivity := 0.0;
      isTransitioningToFreeLook := false;
      freeLookTransitionTime := 0.0;
      lastPlayerPosition := Zero;
      smoothedPlayerPosition := Zero;
      currentZoomDistance := ZoomDefaultDistance;
    }

    /** Start: the look sensitivity is read from the game's settings. */
    method Start(sensitivity: real)
      modifies this
      ensures State() == old(State()).(lookSensitivity := sensitivity)
    {
      lookSensitivity := sensitivity;
    }

    /** Update: one frame. */
    method Update(f: Frame, eng: Engine) returns (out: FrameOutput)
      modifies this
      ensures State() == Step(old(State()), f, eng).state
      ensures out == Step(old(State()), f, eng).output
      ensures old(Valid()) ==> Valid()
    {
      if Valid() {
        StepKeepsZoomInRange(State(), f, eng);
      }
      if goalScorer.None? || camera.None? || goal.None? {
        var warnings := NullWarnings(f.frameCount);
        return Silent.(warnings := warnings);
      }

      HandleModeAndZoom(f);
      HandleRightButton(f, eng);

      if !camera.value.isReplayCamera {
        return Silent;
      }

      var target: Option<Target>;
      if !isFirstPerson {
        if isFreeLook || goalScored {
          target := if f.scorerView.Some? then Some(ScorerCamera) else None;
        } else {
          target := if f.goalHasTransform then Some(GoalTransform) else None;
        }
      } else {
        target := Some(NoTarget);
      }

      out := FollowGoalScorer(f, eng);
      out := out.(target := target);
    }

    /** The warnings of the null guard in Update. */
    method NullWarnings(frameCount: nat) returns (warnings: seq<Missing>)
      ensures warnings == MissingWarnings(State(), frameCount)
    {
      warnings := [];
      if frameCount % LogThrottleFrames == 0 {
        if goalScorer.None? { warnings := warnings + [ScorerMissing]; }
        if camera.None? { warnings := warnings + [CameraMissing]; }
        if goal.None? { warnings := warnings + [GoalMissing]; }
      }
    }

    /** The rest of Update, after the SetTarget call. */
    method FollowGoalScorer(f: Frame, eng: Engine) returns (out: FrameOutput)
      modifies this
      ensures State() == FollowScorer(old(State()), f, eng).state
      ensures out == FollowScorer(old(State()), f, eng).output
    {
      if f.scorerView.None? {
        return Silent;
      }
      var view := f.scorerView.value;
      var targetPosition := view.position;
      var head := Zero;
      if !isFirstPerson {
        if f.scorerHead.None? {
          return Silent;
        }
        head := f.scorerHead.value;
        TrackHead(head);
        targetPosition := ThirdPersonTarget(smoothedPlayerPosition, view.forward, currentZoomDistance);
      }
      var targetRotation := view.rotation;

      if isFirstPerson {
        out := HandleFirstPersonCamera(f, targetPosition, targetRotation);
      } else {
        out := HandleThirdPersonCamera(f, targetPosition, head, eng);
      }
    }

    /** The C key and the scroll wheel. */
    method HandleModeAndZoom(f: Frame)
      modifies this
      ensures State() == ModeAndZoom(old(State()), f)
    {
      if f.cPressed {
        isFirstPerson := !isFirstPerson;
      }
      if !isFirstPerson {
        if f.scrollY != 0.0 {
          var zoomFactor := if f.scrollY > 0.0 then 0.9 else 1.1;
          currentZoomDistance := currentZoomDistance * zoomFactor;
          currentZoomDistance := Clamp(currentZoomDistance, ZoomMinDistance, ZoomMaxDistance);
        }
      }
    }

    /** The right mouse button. */
    method HandleRightButton(f: Frame, eng: Engine)
      modifies this
      ensures State() == RightButton(old(State()), f, eng)
    {
      if f.rightPressed {
        var currentEuler := eng.eulerAngles(f.cameraRotation);
        var wrapped := currentEuler.x;
        if wrapped > 180.0 {
          wrapped := wrapped - 360.0;
        }
        isFreeLook, isTransitioningToFreeLook, freeLookTransitionTime := true, true, 0.0;
        originalRotation := f.cameraRotation;
        yaw, pitch := currentEuler.y, wrapped;
      }
      if f.rightReleased {
        isFreeLook, isTransitioningToFreeLook := false, false;
      }
    }

    /** The mouse turns the free-look rotation, whose pitch is then clamped to [lo, hi]. */
    method Turn(f: Frame, lo: real, hi: real)
      requires lo <= hi
      modifies this
      ensures State() == TurnFreeLook(old(State()), f, lo, hi)
    {
      yaw := yaw + f.mouseDeltaX * lookSensitivity;
      pitch := pitch - f.mouseDeltaY * lookSensitivity;
      pitch := Clamp(pitch, lo, hi);
    }

    /** The smoothing of the scorer's head position in the third-person part of Update. */
    method TrackHead(head: Vec3)
      modifies this
      ensures State() == TrackPlayer(old(State()), head)
    {
      if ApproxEqual(lastPlayerPosition, Zero) {
        lastPlayerPosition := head;
        smoothedPlayerPosition := head;
      } else {
        smoothedPlayerPosition := LerpVec(smoothedPlayerPosition, head, PlayerPositionSmoothing);
      }
      lastPlayerPosition := head;
    }

    /** HandleFirstPersonCamera. */
    method HandleFirstPersonCamera(f: Frame, targetPosition: Vec3, targetRotation: Rotation) returns (out: FrameOutput)
      modifies this
      ensures State() == FirstPersonStep(old(State()), f, targetPosition, targetRotation).state
      ensures out == FirstPersonStep(old(State()), f, targetPosition, targetRotation).output
    {
      if isFreeLook {
        Turn(f, -FirstPersonPitchLimit, FirstPersonPitchLimit);
        out := Silent.(pose := PositionAndRotation(targetPosition, Euler(pitch, yaw)));
      } else {
        var smoothedRotation := QuaternionLerp(f.cameraRotation, targetRotation, FirstPersonRotationLerpSpeed);
        out := Silent.(pose := PositionAndRotation(targetPosition, smoothedRotation));
      }
      out := out.(scorerShown := Some(false));
    }

    /** HandleThirdPersonCamera; `head` is the position of the scorer's PlayerHead. */
    method HandleThirdPersonCamera(f: Frame, targetPosition: Vec3, head: Vec3, eng: Engine) returns (out: FrameOutput)
      modifies this
      ensures State() == ThirdPersonStep(old(State()), f, targetPosition, head, eng).state
      ensures out == ThirdPersonStep(old(State()), f, targetPosition, head, eng).output
    {
      var lerpSpeed := LerpSpeed(currentZoomDistance);
      if isFreeLook {
        out := Orbit(f, head, eng);
      } else {
        var smoothedPosition := LerpVec(f.cameraPosition, targetPosition, lerpSpeed);
        smoothedPosition := PushBack(currentZoomDistance, smoothedPosition, smoothedPlayerPosition, eng);
        out := Silent.(pose := PositionOnly(smoothedPosition), scorerShown := Some(true));
      }
    }

    /** The free-look orbit of HandleThirdPersonCamera, with the transition into it. */
    method Orbit(f: Frame, head: Vec3, eng: Engine) returns (out: FrameOutput)
      modifies this
      ensures State() == OrbitStep(old(State()), f, head, eng).state
      ensures out == OrbitStep(old(State()), f, head, eng).output
    {
      Turn(f, FreeLookPitchMin, FreeLookPitchMax);
      var orbitalPosition := Add(head, Scale(eng.rotate(Euler(pitch, yaw), Back), currentZoomDistance));
      var smoothedPosition := LerpVec(f.cameraPosition, orbitalPosition, FreeLookOrbitalLerpSpeed);
      var targetLookRotation := LookRotation(eng.normalized(Sub(head, smoothedPosition)));
      if isTransitioningToFreeLook {
        freeLookTransitionTime := freeLookTransitionTime + f.deltaTime;
        var t := Clamp01(freeLookTransitionTime / FreeLookTransitionDuration);
        assert t == TransitionFraction(freeLookTransitionTime);
        out := Silent.(pose := PositionAndRotation(smoothedPosition, QuaternionLerp(originalRotation, targetLookRotation, t)));
        if t >= 1.0 {
          isTransitioningToFreeLook := false;
        }
      } else {
        out := Silent.(pose := PositionAndRotation(smoothedPosition, targetLookRotation));
      }
    }

    /** SetGoal. */
    method SetGoal(g: Option<Goal>)
      modifies this
      ensures State() == old(State()).(goal := g)
    {
      goal := g;
    }

    /**
     * SetGoalScorer: a null argument changes nothing; otherwise the first
     * replay player with the same user name and number becomes the goal
     * scorer (the previous one stays when none matches), and the camera is
     * placed behind the scorer when a camera is set. `scorerView` is the
     * scorer's PlayerCamera transform at that moment.
     */
    method SetGoalScorer(wanted: Option<Player>, replayPlayers: seq<Player>, scorerView: Option<View>)
      returns (init: PoseWrite)
      modifies this
      ensures State() == SetScorer(old(State()), wanted, replayPlayers, scorerView).state
      ensures init == SetScorer(old(State()), wanted, replayPlayers, scorerView).init
    {
      init := NoWrite;
      if wanted.None? {
        return;
      }
      var i := 0;
      while i < |replayPlayers|
        invariant 0 <= i <= |replayPlayers|
        invariant forall j :: 0 <= j < i ==> !SamePlayer(replayPlayers[j], wanted.value)
        invariant goalScorer == old(goalScorer)
        invariant State() == old(State())
      {
        if SamePlayer(replayPlayers[i], wanted.value) {
          goalScorer := Some(replayPlayers[i]);
          break;
        }
        i := i + 1;
      }
      if goalScorer.Some? && camera.Some? {
        init := InitializeCameraPosition(scorerView);
      }
    }

    /** InitializeCameraPosition. */
    method InitializeCameraPosition(scorerView: Option<View>) returns (init: PoseWrite)
      ensures goalScorer.Some? && camera.Some? ==> init == InitialPose(scorerView)
      ensures goalScorer.None? || camera.None? ==> init == NoWrite
    {
      if goalScorer.None? || camera.None? {
        return NoWrite;
      }
      match scorerView {
        case None =>
          init := NoWrite;
        case Some(view) =>
          var initialPosition := Sub(view.position, Scale(view.forward, InitialCameraDistance));
          init := PositionAndRotation(initialPosition, view.rotation);
      }
    }

    /** SetReplayCamera: a null camera changes nothing; otherwise it is set, and placed behind a goal scorer already set. */
    method SetReplayCamera(c: Option<Camera>, scorerView: Option<View>) returns (init: PoseWrite)
      modifies this
      ensures State() == SetCamera(old(State()), c, scorerView).state
      ensures init == SetCamera(old(State()), c, scorerView).init
    {
      if c.None? {
        return NoWrite;
      }
      camera := c;
      init := NoWrite;
      if goalScorer.Some? {
        init := InitializeCameraPosition(scorerView);
      }
    }

    /** SetGoalScored. */
    method SetGoalScored(scored: bool)
      modifies this
      ensures State() == old(State()).(goalScored := scored)
    {
      goalScored := scored;
    }
  }
}
