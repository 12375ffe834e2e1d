/**
 * The per-frame rules of the replay camera handler, as functions of the
 * handler's state and of what the frame observes: the inputs of that frame,
 * the pose of the replay camera when the frame starts and the transforms of
 * the goal scorer. `Step` is one call of Update; the class in ReplaysHandler
 * performs the same steps on its fields.
 */
module CameraRules {
  import opened Wrappers
  import opened UnityMath

  // ---------------------------------------------------------------- constants of the handler

  const PlayerPositionSmoothing := 0.3
  const PushBackSpeed := 0.01
  const FreeLookOrbitalLerpSpeed := 0.05
  const MinCameraDistance := 2.0
  const FreeLookTransitionDuration := 0.5
  const LogThrottleFrames := 300
  const FirstPersonRotationLerpSpeed := 0.1
  const CameraOffsetHeight := 0.5
  const InitialCameraDistance := 3.0
  const FirstPersonPitchLimit := 90.0
  const FreeLookPitchMin := -20.0
  const FreeLookPitchMax := 80.0
  const ZoomMinDistance := 0.2
  const ZoomMaxDistance := 16.0
  const ZoomDefaultDistance := 1.0
  const LerpSpeedAtMinZoom := 0.1
  const LerpSpeedAtMaxZoom := 0.01
  const LerpSpeedAtDefaultZoom := 0.02

  // ---------------------------------------------------------------- the objects the handler refers to

  /** A player object: `id` stands for its identity, which SetGoalScorer does not compare. */
  datatype Player = Player(id: int, username: string, number: int)

  /** The replay camera the handler was given; only whether it is a ReplayCamera matters. */
  datatype Camera = Camera(isReplayCamera: bool)

  /** The goal the handler was given. */
  datatype Goal = Goal(id: int)

  /** A transform as the handler reads it: position, forward direction and rotation. */
  datatype View = View(position: Vec3, forward: Vec3, rotation: Rotation)

  /** What one frame observes. */
  datatype Frame = Frame(
    frameCount: nat,
    /** Keyboard C was pressed this frame. */
    cPressed: bool,
    rightPressed: bool,
    rightReleased: bool,
    scrollY: real,
    mouseDeltaX: real,
    mouseDeltaY: real,
    deltaTime: real,
    /** The replay camera's transform when the frame starts. */
    cameraPosition: Vec3,
    cameraRotation: Rotation,
    /** The goal scorer's PlayerCamera transform, None when it is null. */
    scorerView: Option<View>,
    /** The position of the goal scorer's PlayerHead, None when a link to it is null. */
    scorerHead: Option<Vec3>,
    /** The goal has a transform. */
    goalHasTransform: bool)

  // ---------------------------------------------------------------- the handler's state

  datatype CameraState = CameraState(
    scorer: Option<Player>,
    camera: Option<Camera>,
    goal: Option<Goal>,
    goalScored: bool,
    isFirstPerson: bool,
    isFreeLook: bool,
    /** freeLookRotation.x */
    yaw: real,
    /** freeLookRotation.y */
    pitch: real,
    originalRotation: Rotation,
    lookSensitivity: real,
    isTransitioningToFreeLook: bool,
    freeLookTransitionTime: real,
    lastPlayerPosition: Vec3,
    smoothedPlayerPosition: Vec3,
    currentZoomDistance: real)

  /** The field initialisers of the handler. */
  const InitialState := CameraState(
    None, None, None, false, false, false, 0.0, 0.0, Unset, 0.0,
    false, 0.0, Zero, Zero, ZoomDefaultDistance)

  // ---------------------------------------------------------------- what a frame does outside the state

  /** A warning of the null guard. */
  datatype Missing = ScorerMissing | CameraMissing | GoalMissing

  /** The argument of ReplayCamera.SetTarget: null, the scorer's PlayerCamera or the goal. */
  datatype Target = NoTarget | ScorerCamera | GoalTransform

  /** What the frame writes to the replay camera's transform. */
  datatype PoseWrite = NoWrite | PositionAndRotation(position: Vec3, rotation: Rotation) | PositionOnly(position: Vec3)

  datatype FrameOutput = FrameOutput(
    warnings: seq<Missing>,
    /** The SetTarget call of the frame, if any. */
    target: Option<Target>,
    pose: PoseWrite,
    /** Some(false) for HideGoalScorer, Some(true) for ShowGoalScorer. */
    scorerShown: Option<bool>)

  datatype StepResult = StepResult(state: CameraState, output: FrameOutput)

  const Silent := FrameOutput([], None, NoWrite, None)

  // ---------------------------------------------------------------- scalar rules

  /** Whether the goal scorer, the camera and the goal are all set. */
  predicate Ready(s: CameraState) {
    s.scorer.Some? && s.camera.Some? && s.goal.Some?
  }

  /** The warnings of the null guard: one per missing object, on every 300th frame only. */
  function MissingWarnings(s: CameraState, frameCount: nat): (r: seq<Missing>)
    ensures (ScorerMissing in r) == (frameCount % LogThrottleFrames == 0 && s.scorer.None?)
    ensures (CameraMissing in r) == (frameCount % LogThrottleFrames == 0 && s.camera.None?)
    ensures (GoalMissing in r) == (frameCount % LogThrottleFrames == 0 && s.goal.None?)
    ensures frameCount % LogThrottleFrames != 0 ==> r == []
  {
    if frameCount % LogThrottleFrames != 0 then []
    else
      (if s.scorer.None? then [ScorerMissing] else [])
      + (if s.camera.None? then [CameraMissing] else [])
      + (if s.goal.None? then [GoalMissing] else [])
  }

  predicate ZoomInRange(zoom: real) {
    ZoomMinDistance <= zoom <= ZoomMaxDistance
  }

  /** The scroll-wheel zoom: multiplied by 0.9 on a positive scroll, by 1.1 on a negative one, then clamped. */
  function ZoomStep(zoom: real, scrollY: real): (r: real)
    ensures scrollY == 0.0 ==> r == zoom
    ensures scrollY != 0.0 ==> ZoomInRange(r)
    ensures ZoomInRange(zoom) && scrollY > 0.0 ==> r <= zoom
    ensures ZoomInRange(zoom) && scrollY < 0.0 ==> r >= zoom
    ensures ZoomInRange(zoom) ==> ZoomInRange(r)
  {
    if scrollY == 0.0 then zoom
    else
      var factor := if scrollY > 0.0 then 0.9 else 1.1;
      Clamp(zoom * factor, ZoomMinDistance, ZoomMaxDistance)
  }

  /** Euler x in [0, 360) turned into a pitch in (-180, 180]. */
  function WrapPitch(eulerX: real): (r: real)
    ensures 0.0 <= eulerX < 360.0 ==> -180.0 < r <= 180.0
    ensures eulerX <= 180.0 ==> r == eulerX
    ensures eulerX > 180.0 ==> r == eulerX - 360.0
  {
    if eulerX > 180.0 then eulerX - 360.0 else eulerX
  }

  /** The C key toggles the mode; in third person the scroll wheel then zooms. */
  function ModeAndZoom(s: CameraState, f: Frame): CameraState {
    var firstPerson := if f.cPressed then !s.isFirstPerson else s.isFirstPerson;
    var zoom := if !firstPerson then ZoomStep(s.currentZoomDistance, f.scrollY) else s.currentZoomDistance;
    s.(isFirstPerson := firstPerson, currentZoomDistance := zoom)
  }

  /** A right-button press enters free look from the camera's rotation; a release, checked after it, leaves it. */
  function RightButton(s: CameraState, f: Frame, eng: Engine): CameraState {
    var pressed := if f.rightPressed then EnterFreeLook(s, eng.eulerAngles(f.cameraRotation), f.cameraRotation) else s;
    if f.rightReleased then pressed.(isFreeLook := false, isTransitioningToFreeLook := false) else pressed
  }

  /** Free look starts from the camera's rotation, with the yaw from Euler y and the pitch from Euler x, wrapped. */
  function EnterFreeLook(s: CameraState, euler: Vec3, rotation: Rotation): CameraState {
    s.(isFreeLook := true, isTransitioningToFreeLook := true, freeLookTransitionTime := 0.0,
       originalRotation := rotation, yaw := euler.y, pitch := WrapPitch(euler.x))
  }

  /** The inputs, which apply before the camera is checked. */
  function ApplyInputs(s: CameraState, f: Frame, eng: Engine): CameraState {
    RightButton(ModeAndZoom(s, f), f, eng)
  }

  /** The SetTarget call of a frame on a ReplayCamera. */
  function SelectTarget(s: CameraState, f: Frame): (r: Option<Target>)
    ensures s.isFirstPerson ==> r == Some(NoTarget)
    ensures !s.isFirstPerson && (s.isFreeLook || s.goalScored) ==> r == (if f.scorerView.Some? then Some(ScorerCamera) else None)
    ensures !s.isFirstPerson && !s.isFreeLook && !s.goalScored ==> r == (if f.goalHasTransform then Some(GoalTransform) else None)
  {
    if s.isFirstPerson then Some(NoTarget)
    else if s.isFreeLook || s.goalScored then
      if f.scorerView.Some? then Some(ScorerCamera) else None
    else if f.goalHasTransform then Some(GoalTransform) else None
  }

  /** Smoothing of the player's head position: snapped on the first observation, eased by 0.3 afterwards. */
  function TrackPlayer(s: CameraState, head: Vec3): (r: CameraState)
    ensures r.lastPlayerPosition == head
    ensures ApproxEqual(s.lastPlayerPosition, Zero) ==> r.smoothedPlayerPosition == head
    ensures !ApproxEqual(s.lastPlayerPosition, Zero) ==>
      r.smoothedPlayerPosition == LerpVec(s.smoothedPlayerPosition, head, PlayerPositionSmoothing)
    ensures r == s.(lastPlayerPosition := r.lastPlayerPosition, smoothedPlayerPosition := r.smoothedPlayerPosition)
  {
    var smoothed :=
      if ApproxEqual(s.lastPlayerPosition, Zero) then head
      else LerpVec(s.smoothedPlayerPosition, head, PlayerPositionSmoothing);
    s.(lastPlayerPosition := head, smoothedPlayerPosition := smoothed)
  }

  /** The factor by which the camera height shrinks as the zoom grows. */
  function HeightMultiplier(zoom: real): (r: real)
    ensures 0.5 <= r <= 1.0
    ensures zoom <= ZoomDefaultDistance ==> r == 1.0
    ensures zoom >= ZoomMaxDistance ==> r == 0.5
  {
    var m := Lerp(1.0, 0.5, (zoom - ZoomDefaultDistance) / (ZoomMaxDistance - ZoomDefaultDistance));
    Clamp(m, 0.5, 1.0)
  }

  /** The third-person target: above and behind the smoothed head position. */
  function ThirdPersonTarget(smoothed: Vec3, forward: Vec3, zoom: real): Vec3 {
    var dynamicHeight := CameraOffsetHeight * HeightMultiplier(zoom);
    Add(smoothed, Add(Scale(forward, -zoom), Scale(Up, dynamicHeight)))
  }

  /** The third-person position lerp speed: piecewise linear in the zoom, through 0.1, 0.02 and 0.01. */
  function LerpSpeed(zoom: real): (r: real)
    ensures LerpSpeedAtMaxZoom <= r <= LerpSpeedAtMinZoom
    ensures zoom <= ZoomMinDistance ==> r == LerpSpeedAtMinZoom
    ensures zoom == ZoomDefaultDistance ==> r == LerpSpeedAtDefaultZoom
    ensures zoom >= ZoomMaxDistance ==> r == LerpSpeedAtMaxZoom
  {
    if zoom <= ZoomDefaultDistance then
      var t := (zoom - ZoomMinDistance) / (ZoomDefaultDistance - ZoomMinDistance);
      Lerp(LerpSpeedAtMinZoom, LerpSpeedAtDefaultZoom, t)
    else
      var t := (zoom - ZoomDefaultDistance) / (ZoomMaxDistance - ZoomDefaultDistance);
      Lerp(LerpSpeedAtDefaultZoom, LerpSpeedAtMaxZoom, t)
  }

  /** The fraction of the free-look transition that has passed once `time` seconds have accumulated. */
  function TransitionFraction(time: real): (t: real)
    ensures 0.0 <= t <= 1.0
    ensures t >= 1.0 <==> time >= FreeLookTransitionDuration
  {
    Clamp01(time / FreeLookTransitionDuration)
  }

  /** The mouse turns the free-look rotation; the pitch is then clamped to [lo, hi]. */
  function TurnFreeLook(s: CameraState, f: Frame, lo: real, hi: real): (r: CameraState)
    requires lo <= hi
    ensures lo <= r.pitch <= hi
    ensures r == s.(yaw := r.yaw, pitch := r.pitch)
  {
    var yaw := s.yaw + f.mouseDeltaX * s.lookSensitivity;
    var pitch := Clamp(s.pitch - f.mouseDeltaY * s.lookSensitivity, lo, hi);
    s.(yaw := yaw, pitch := pitch)
  }

  // ---------------------------------------------------------------- the two camera modes

  /** HandleFirstPersonCamera: at the scorer's eyes, turned by the mouse in free look, else eased towards the scorer's rotation. */
  function FirstPersonStep(s: CameraState, f: Frame, targetPosition: Vec3, targetRotation: Rotation): (r: StepResult)
    ensures r.state == s.(yaw := r.state.yaw, pitch := r.state.pitch)
    ensures !s.isFreeLook ==> r.state == s
    ensures s.isFreeLook ==> -FirstPersonPitchLimit <= r.state.pitch <= FirstPersonPitchLimit
    ensures r.output == Silent.(pose := r.output.pose, scorerShown := Some(false))
    ensures r.output.pose.PositionAndRotation? && r.output.pose.position == targetPosition
    ensures s.isFreeLook ==> r.output.pose.rotation == Euler(r.state.pitch, r.state.yaw)
  {
    if s.isFreeLook then
      var turned := TurnFreeLook(s, f, -FirstPersonPitchLimit, FirstPersonPitchLimit);
      StepResult(turned, Silent.(pose := PositionAndRotation(targetPosition, Euler(turned.pitch, turned.yaw)), scorerShown := Some(false)))
    else
      var rotation := QuaternionLerp(f.cameraRotation, targetRotation, FirstPersonRotationLerpSpeed);
      StepResult(s, Silent.(pose := PositionAndRotation(targetPosition, rotation), scorerShown := Some(false)))
  }

  /**
   * The push-back: with the zoom at least 2, a camera closer than 2 to the
   * smoothed head moves 1% of the way towards the point at distance 2 on the
   * ray from the head through the camera.
   */
  function PushBack(zoom: real, position: Vec3, head: Vec3, eng: Engine): (r: Vec3)
    ensures r != position ==> zoom >= MinCameraDistance && Distance(eng, position, head) < MinCameraDistance
  {
    if zoom >= MinCameraDistance then
      var direction := eng.normalized(Sub(position, head));
      var distance := Distance(eng, position, head);
      if distance < MinCameraDistance then
        LerpVec(position, Add(head, Scale(direction, MinCameraDistance)), PushBackSpeed)
      else position
    else position
  }

  /** The free-look orbit of HandleThirdPersonCamera, and the transition into it. */
  function OrbitStep(s: CameraState, f: Frame, head: Vec3, eng: Engine): (r: StepResult)
    ensures FreeLookPitchMin <= r.state.pitch <= FreeLookPitchMax
    ensures r.state == s.(yaw := r.state.yaw, pitch := r.state.pitch,
      freeLookTransitionTime := r.state.freeLookTransitionTime,
      isTransitioningToFreeLook := r.state.isTransitioningToFreeLook)
    ensures !s.isTransitioningToFreeLook ==>
      !r.state.isTransitioningToFreeLook && r.state.freeLookTransitionTime == s.freeLookTransitionTime
    ensures s.isTransitioningToFreeLook ==>
      && r.state.freeLookTransitionTime == s.freeLookTransitionTime + f.deltaTime
      && (r.state.isTransitioningToFreeLook <==> r.state.freeLookTransitionTime < FreeLookTransitionDuration)
    ensures r.output == Silent.(pose := r.output.pose) && r.output.pose.PositionAndRotation?
  {
    var turned := TurnFreeLook(s, f, FreeLookPitchMin, FreeLookPitchMax);
    var orbital := Add(head, Scale(eng.rotate(Euler(turned.pitch, turned.yaw), Back), s.currentZoomDistance));
    var position := LerpVec(f.cameraPosition, orbital, FreeLookOrbitalLerpSpeed);
    var look := LookRotation(eng.normalized(Sub(head, position)));
    if s.isTransitioningToFreeLook then
      var time := s.freeLookTransitionTime + f.deltaTime;
      var t := TransitionFraction(time);
      var next := turned.(freeLookTransitionTime := time, isTransitioningToFreeLook := !(t >= 1.0));
      StepResult(next, Silent.(pose := PositionAndRotation(position, QuaternionLerp(s.originalRotation, look, t))))
    else
      StepResult(turned, Silent.(pose := PositionAndRotation(position, look)))
  }

  /** HandleThirdPersonCamera: the orbit in free look, else eased towards the target and pushed back from the head. */
  function ThirdPersonStep(s: CameraState, f: Frame, targetPosition: Vec3, head: Vec3, eng: Engine): (r: StepResult)
    ensures s.isFreeLook ==> r == OrbitStep(s, f, head, eng)
    ensures !s.isFreeLook ==> r.state == s && r.output.pose.PositionOnly? && r.output.scorerShown == Some(true)
    ensures r.output.warnings == [] && r.output.target == None
  {
    if s.isFreeLook then OrbitStep(s, f, head, eng)
    else
      var eased := LerpVec(f.cameraPosition, targetPosition, LerpSpeed(s.currentZoomDistance));
      var position := PushBack(s.currentZoomDistance, eased, s.smoothedPlayerPosition, eng);
      StepResult(s, Silent.(pose := PositionOnly(position), scorerShown := Some(true)))
  }

  /** A camera mode's result together with the SetTarget call made before it. */
  function WithTarget(r: StepResult, target: Option<Target>): StepResult {
    r.(output := r.output.(target := target))
  }

  /**
   * The part of Update after the SetTarget call: the target position and
   * rotation come from the scorer's PlayerCamera, in third person from the
   * smoothed head position; a null transform ends the frame.
   */
  function FollowScorer(s: CameraState, f: Frame, eng: Engine): (r: StepResult)
    ensures f.scorerView.None? || (!s.isFirstPerson && f.scorerHead.None?) ==> r == StepResult(s, Silent)
    ensures r.output.warnings == [] && r.output.target == None
    ensures SameSetup(s, r.state)
    ensures r.state.isFirstPerson == s.isFirstPerson && r.state.isFreeLook == s.isFreeLook
    ensures r.state.currentZoomDistance == s.currentZoomDistance
  {
    match f.scorerView
    case None => StepResult(s, Silent)
    case Some(view) =>
      if s.isFirstPerson then FirstPersonStep(s, f, view.position, view.rotation)
      else
        match f.scorerHead
        case None => StepResult(s, Silent)
        case Some(head) =>
          var tracked := TrackPlayer(s, head);
          var targetPosition := ThirdPersonTarget(tracked.smoothedPlayerPosition, view.forward, tracked.currentZoomDistance);
          ThirdPersonStep(tracked, f, targetPosition, head, eng)
  }

  /** What only the setters and Start change: the scorer, the camera, the goal, the goal-scored flag and the sensitivity. */
  predicate SameSetup(a: CameraState, b: CameraState) {
    && a.scorer == b.scorer && a.camera == b.camera && a.goal == b.goal
    && a.goalScored == b.goalScored && a.lookSensitivity == b.lookSensitivity
  }

  /** One call of Update. */
  function Step(s: CameraState, f: Frame, eng: Engine): (r: StepResult)
    ensures SameSetup(s, r.state)
  {
    if !Ready(s) then StepResult(s, Silent.(warnings := MissingWarnings(s, f.frameCount)))
    else
      var applied := ApplyInputs(s, f, eng);
      if !applied.camera.value.isReplayCamera then StepResult(applied, Silent)
      else WithTarget(FollowScorer(applied, f, eng), SelectTarget(applied, f))
  }

  /** A run of frames from a state. */
  function Run(s: CameraState, frames: seq<Frame>, eng: Engine): (r: CameraState)
    ensures SameSetup(s, r)
    decreases |frames|
  {
    if frames == [] then s else Run(Step(s, frames[0], eng).state, frames[1..], eng)
  }

  // ---------------------------------------------------------------- properties of a frame

  /** A frame before the goal scorer, the camera and the goal are all set changes nothing and only warns, every 300th frame. */
  lemma NotReadyFrameOnlyWarns(s: CameraState, f: Frame, eng: Engine)
    requires !Ready(s)
    ensures Step(s, f, eng).state == s
    ensures Step(s, f, eng).output.target == None && Step(s, f, eng).output.pose == NoWrite
    ensures Step(s, f, eng).output.warnings != [] <==> f.frameCount % LogThrottleFrames == 0
  {
    var w := MissingWarnings(s, f.frameCount);
    if f.frameCount % LogThrottleFrames == 0 {
      if s.scorer.None? {
        assert ScorerMissing in w;
      } else if s.camera.None? {
        assert CameraMissing in w;
      } else {
        assert GoalMissing in w;
      }
    }
  }

  /** What the two camera modes leave alone: the mode, the zoom, the free-look flag and the player tracking. */
  lemma ModesKeepFlags(s: CameraState, f: Frame, position: Vec3, rotation: Rotation, head: Vec3, eng: Engine)
    ensures var r := FirstPersonStep(s, f, position, rotation).state;
      r.isFirstPerson == s.isFirstPerson && r.currentZoomDistance == s.currentZoomDistance
      && r.isFreeLook == s.isFreeLook && r.isTransitioningToFreeLook == s.isTransitioningToFreeLook
    ensures var r := ThirdPersonStep(s, f, position, head, eng).state;
      r.isFirstPerson == s.isFirstPerson && r.currentZoomDistance == s.currentZoomDistance
      && r.isFreeLook == s.isFreeLook && r.smoothedPlayerPosition == s.smoothedPlayerPosition
      && r.lastPlayerPosition == s.lastPlayerPosition
      && (r.isTransitioningToFreeLook ==> s.isTransitioningToFreeLook)
  {
  }

  /**
   * Once everything is set, a frame ends with the mode, the zoom and the
   * free-look flag that the inputs gave it: the camera modes do not change them.
   */
  lemma ReadyFrameKeepsInputs(s: CameraState, f: Frame, eng: Engine)
    requires Ready(s)
    ensures var a, r := ApplyInputs(s, f, eng), Step(s, f, eng).state;
      r.isFirstPerson == a.isFirstPerson && r.currentZoomDistance == a.currentZoomDistance
      && r.isFreeLook == a.isFreeLook
      && (r.isTransitioningToFreeLook ==> a.isTransitioningToFreeLook)
  {
    var a := ApplyInputs(s, f, eng);
    if a.camera.value.isReplayCamera && f.scorerView.Some? {
      var view := f.scorerView.value;
      if a.isFirstPerson {
        ModesKeepFlags(a, f, view.position, view.rotation, Zero, eng);
      } else if f.scorerHead.Some? {
        var head := f.scorerHead.value;
        var tracked := TrackPlayer(a, head);
        var targetPosition := ThirdPersonTarget(tracked.smoothedPlayerPosition, view.forward, tracked.currentZoomDistance);
        ModesKeepFlags(tracked, f, targetPosition, view.rotation, head, eng);
      }
    }
  }

  /** The C key flips between first and third person, on every frame past the null guard. */
  lemma CKeyTogglesMode(s: CameraState, f: Frame, eng: Engine)
    requires Ready(s)
    ensures Step(s, f, eng).state.isFirstPerson == (s.isFirstPerson != f.cPressed)
  {
    ReadyFrameKeepsInputs(s, f, eng);
  }

  /** The zoom changes only in third person, on a non-zero scroll, and then by ZoomStep. */
  lemma ZoomChangesOnlyOnThirdPersonScroll(s: CameraState, f: Frame, eng: Engine)
    ensures var z := Step(s, f, eng).state.currentZoomDistance;
      z != s.currentZoomDistance ==>
        Ready(s) && f.scrollY != 0.0 && !ApplyInputs(s, f, eng).isFirstPerson
        && z == ZoomStep(s.currentZoomDistance, f.scrollY)
  {
    if Ready(s) {
      ReadyFrameKeepsInputs(s, f, eng);
    }
  }

  /** A frame keeps the zoom within [0.2, 16]. */
  lemma StepKeepsZoomInRange(s: CameraState, f: Frame, eng: Engine)
    requires ZoomInRange(s.currentZoomDistance)
    ensures ZoomInRange(Step(s, f, eng).state.currentZoomDistance)
  {
    ZoomChangesOnlyOnThirdPersonScroll(s, f, eng);
  }

  /** The zoom starts at 1 and stays within [0.2, 16] over any run of frames. */
  lemma {:induction false} RunKeepsZoomInRange(s: CameraState, frames: seq<Frame>, eng: Engine)
    requires ZoomInRange(s.currentZoomDistance)
    ensures ZoomInRange(Run(s, frames, eng).currentZoomDistance)
    decreases |frames|
  {
    if frames != [] {
      StepKeepsZoomInRange(s, frames[0], eng);
      RunKeepsZoomInRange(Step(s, frames[0], eng).state, frames[1..], eng);
    }
  }

  /**
   * The right button: a press enters free look and starts the transition from
   * the camera's rotation, with the pitch taken from Euler x and wrapped; a
   * release ends both, and is checked after the press, so that a press and a
   * release in one frame leave free look off.
   */
  lemma RightButtonPressAndRelease(s: CameraState, f: Frame, eng: Engine)
    requires Ready(s)
    ensures var a, r := ApplyInputs(s, f, eng), Step(s, f, eng).state;
      && (f.rightReleased ==> !r.isFreeLook && !r.isTransitioningToFreeLook)
      && (f.rightPressed && !f.rightReleased ==>
            r.isFreeLook && a.isTransitioningToFreeLook && a.freeLookTransitionTime == 0.0
            && a.originalRotation == f.cameraRotation
            && a.yaw == eng.eulerAngles(f.cameraRotation).y
            && a.pitch == WrapPitch(eng.eulerAngles(f.cameraRotation).x))
      && (!f.rightPressed && !f.rightReleased ==> r.isFreeLook == s.isFreeLook)
  {
    ReadyFrameKeepsInputs(s, f, eng);
  }

  /**
   * The SetTarget call: none on a camera that is not a ReplayCamera, whose
   * frame ends after the inputs are applied; otherwise the one SelectTarget
   * chooses from the state after the inputs.
   */
  lemma TargetOfReadyFrame(s: CameraState, f: Frame, eng: Engine)
    requires Ready(s)
    ensures var a, r := ApplyInputs(s, f, eng), Step(s, f, eng);
      if a.camera.value.isReplayCamera then r.output.target == SelectTarget(a, f)
      else r.state == a && r.output == Silent
  {
  }

  /** After a free-look frame the pitch lies in [-90, 90] in first person and in [-20, 80] in third person. */
  lemma FreeLookPitchIsClamped(s: CameraState, f: Frame, eng: Engine)
    requires Ready(s)
    requires var a := ApplyInputs(s, f, eng);
      a.camera.value.isReplayCamera && a.isFreeLook && f.scorerView.Some?
      && (!a.isFirstPerson ==> f.scorerHead.Some?)
    ensures var a, r := ApplyInputs(s, f, eng), Step(s, f, eng).state;
      && (a.isFirstPerson ==> -FirstPersonPitchLimit <= r.pitch <= FirstPersonPitchLimit)
      && (!a.isFirstPerson ==> FreeLookPitchMin <= r.pitch <= FreeLookPitchMax)
  {
  }

  /**
   * The transition timer: each third-person free-look frame adds deltaTime,
   * blends the rotation by the clamped fraction of 0.5 s, and ends the
   * transition on the first frame where the accumulated time reaches 0.5 s.
   */
  lemma TransitionTimer(s: CameraState, f: Frame, targetPosition: Vec3, head: Vec3, eng: Engine)
    requires s.isFreeLook && s.isTransitioningToFreeLook
    ensures var r, time := ThirdPersonStep(s, f, targetPosition, head, eng), s.freeLookTransitionTime + f.deltaTime;
      && r.state.freeLookTransitionTime == time
      && (r.state.isTransitioningToFreeLook <==> time < FreeLookTransitionDuration)
      && r.output.pose.PositionAndRotation? && r.output.pose.rotation.Blend?
      && r.output.pose.rotation.from == s.originalRotation
      && r.output.pose.rotation.t == TransitionFraction(time)
      && 0.0 <= r.output.pose.rotation.t <= 1.0
  {
  }

  /** Past its transition, free look turns the camera straight to the look rotation. */
  lemma TransitionOver(s: CameraState, f: Frame, targetPosition: Vec3, head: Vec3, eng: Engine)
    requires s.isFreeLook && !s.isTransitioningToFreeLook
    ensures var r := ThirdPersonStep(s, f, targetPosition, head, eng);
      r.state.freeLookTransitionTime == s.freeLookTransitionTime && !r.state.isTransitioningToFreeLook
      && r.output.pose.PositionAndRotation? && r.output.pose.rotation.LookRotation?
  {
  }

  /** The head position is snapped on its first observation in third person, and recorded on every one. */
  lemma FirstObservationSnaps(s: CameraState, f: Frame, eng: Engine)
    requires Ready(s) && ApplyInputs(s, f, eng).camera.value.isReplayCamera
    requires !ApplyInputs(s, f, eng).isFirstPerson && f.scorerView.Some? && f.scorerHead.Some?
    ensures var r := Step(s, f, eng).state;
      r.lastPlayerPosition == f.scorerHead.value
      && (ApproxEqual(s.lastPlayerPosition, Zero) ==> r.smoothedPlayerPosition == f.scorerHead.value)
  {
    var a := ApplyInputs(s, f, eng);
    var head := f.scorerHead.value;
    var view := f.scorerView.value;
    var tracked := TrackPlayer(a, head);
    var targetPosition := ThirdPersonTarget(tracked.smoothedPlayerPosition, view.forward, tracked.currentZoomDistance);
    ModesKeepFlags(tracked, f, targetPosition, view.rotation, head, eng);
  }

  // ---------------------------------------------------------------- the lerp-speed curve and the height multiplier

  /** The curve is linear on [0.2, 1] from 0.1 to 0.02, and on [1, 16] from 0.02 to 0.01. */
  lemma LerpSpeedPiecewiseLinear(zoom: real)
    ensures ZoomMinDistance <= zoom <= ZoomDefaultDistance ==>
      LerpSpeed(zoom) == LerpSpeedAtDefaultZoom + 0.1 * (ZoomDefaultDistance - zoom)
    ensures ZoomDefaultDistance <= zoom <= ZoomMaxDistance ==>
      LerpSpeed(zoom) == LerpSpeedAtDefaultZoom - (zoom - ZoomDefaultDistance) / 1500.0
  {
    if zoom <= ZoomDefaultDistance {
      var t := (zoom - ZoomMinDistance) / (ZoomDefaultDistance - ZoomMinDistance);
      assert zoom >= ZoomMinDistance ==> Clamp01(t) == t;
    } else {
      var t := (zoom - ZoomDefaultDistance) / (ZoomMaxDistance - ZoomDefaultDistance);
      assert zoom <= ZoomMaxDistance ==> Clamp01(t) == t;
    }
  }

  /** Continuity at the default zoom: the speed is within 0.1 times the distance from 1 of its value 0.02 there. */
  lemma LerpSpeedContinuousAtDefault(zoom: real)
    ensures -0.1 * Abs(zoom - ZoomDefaultDistance) <= LerpSpeed(zoom) - LerpSpeedAtDefaultZoom
    ensures LerpSpeed(zoom) - LerpSpeedAtDefaultZoom <= 0.1 * Abs(zoom - ZoomDefaultDistance)
  {
    LerpSpeedPiecewiseLinear(zoom);
  }

  /** The further out the camera is zoomed the slower it follows. */
  lemma LerpSpeedDecreasing(z1: real, z2: real)
    requires z1 <= z2
    ensures LerpSpeed(z2) <= LerpSpeed(z1)
  {
    LerpSpeedPiecewiseLinear(z1);
    LerpSpeedPiecewiseLinear(z2);
  }

  /** The camera gets lower as the zoom grows. */
  lemma HeightMultiplierDecreasing(z1: real, z2: real)
    requires z1 <= z2
    ensures HeightMultiplier(z2) <= HeightMultiplier(z1)
  {
    var t1 := (z1 - ZoomDefaultDistance) / (ZoomMaxDistance - ZoomDefaultDistance);
    var t2 := (z2 - ZoomDefaultDistance) / (ZoomMaxDistance - ZoomDefaultDistance);
    assert t1 <= t2;
    assert Clamp01(t1) <= Clamp01(t2);
  }

  // ---------------------------------------------------------------- push-back

  /** Zoomed in closer than 2, or already 2 or more from the head, the camera is not pushed back. */
  lemma NoPushBackOutsideRange(zoom: real, position: Vec3, head: Vec3, eng: Engine)
    requires zoom < MinCameraDistance || Distance(eng, position, head) >= MinCameraDistance
    ensures PushBack(zoom, position, head, eng) == position
  {
  }

  /**
   * Along the ray from the head through the camera in unit direction `u`, a
   * camera at distance d < 2 moves to distance d + 0.01 (2 - d): never
   * closer, and still short of 2.
   */
  lemma PushBackAlongRay(zoom: real, head: Vec3, u: Vec3, d: real, eng: Engine)
    requires zoom >= MinCameraDistance && 0.0 <= d < MinCameraDistance
    requires eng.normalized(Scale(u, d)) == u && eng.magnitude(Scale(u, d)) == d
    ensures var next := d + PushBackSpeed * (MinCameraDistance - d);
      && PushBack(zoom, Add(head, Scale(u, d)), head, eng) == Add(head, Scale(u, next))
      && d <= next < MinCameraDistance
  {
    var p := Add(head, Scale(u, d));
    assert Sub(p, head) == Scale(u, d);
    var next := d + PushBackSpeed * (MinCameraDistance - d);
    var ideal := Add(head, Scale(u, MinCameraDistance));
    assert Distance(eng, p, head) == d && eng.normalized(Sub(p, head)) == u;
    assert PushBack(zoom, p, head, eng) == LerpVec(p, ideal, PushBackSpeed);
    assert Clamp01(PushBackSpeed) == PushBackSpeed;
    RayLerp(head.x, u.x, d);
    RayLerp(head.y, u.y, d);
    RayLerp(head.z, u.z, d);
    assert LerpVec(p, ideal, PushBackSpeed) == Add(head, Scale(u, next));
  }

  /** One coordinate of the push-back lerp along the ray. */
  lemma RayLerp(h: real, u: real, d: real)
    ensures (h + u * d) + ((h + u * MinCameraDistance) - (h + u * d)) * PushBackSpeed
      == h + u * (d + PushBackSpeed * (MinCameraDistance - d))
  {
  }
}
