/**
 * The plugin's configuration record (BetterReplaysConfig): its table of float
 * settings with ranges, defaults and "missing" sentinels, the two passes that
 * repair a loaded record (missing-field regeneration and range validation),
 * the key-binding queries, and the order of steps in LoadConfig.
 *
 * The JSON library and the file system are outside the model: LoadConfig
 * receives the record as the JSON library left it, and every SaveConfig call
 * is recorded as the document it would write.
 */
module ReplaysConfig {
  import opened Wrappers
  import opened Text
  import UnityMath

  /** One row of the float-settings table. */
  datatype ValidationRule = ValidationRule(
    minValue: real,
    maxValue: real,
    defaultValue: real,
    sentinelValue: real)

  /** A rule with the table's usual sentinel, -1. */
  function Rule(minValue: real, maxValue: real, defaultValue: real): ValidationRule {
    ValidationRule(minValue, maxValue, defaultValue, -1.0)
  }

  const FloatCount := 20

  /** The rule of each float field, named after the field it validates. */
  const PlayerPositionSmoothingRule       := Rule(0.0, 100.0, 0.3)
  const PushBackSpeedRule                 := Rule(0.0, 100.0, 0.01)
  const FreeLookOrbitalLerpSpeedRule      := Rule(0.0, 100.0, 0.05)
  const FreeLookExitPositionLerpSpeedRule := Rule(0.0, 100.0, 0.1)
  const FreeLookExitRotationLerpSpeedRule := Rule(0.0, 100.0, 0.15)
  const MinCameraDistanceRule             := Rule(0.0, 100.0, 2.0)
  const FreeLookTransitionDurationRule    := Rule(0.0, 100.0, 0.5)
  const FirstPersonRotationLerpSpeedRule  := Rule(0.0, 100.0, 0.1)
  const CameraOffsetHeightRule            := ValidationRule(-100.0, 100.0, 0.5, -999.0)
  const InitialCameraDistanceRule         := Rule(0.0, 100.0, 3.0)
  const FirstPersonPitchLimitRule         := Rule(0.0, 90.0, 90.0)
  const FreeLookPitchMinRule              := ValidationRule(-90.0, 90.0, -20.0, -999.0)
  const FreeLookPitchMaxRule              := ValidationRule(-90.0, 90.0, 80.0, -999.0)
  const ZoomMinDistanceRule               := Rule(0.0, 100.0, 0.2)
  const ZoomMaxDistanceRule               := Rule(0.0, 1000.0, 16.0)
  const ZoomDefaultDistanceRule           := Rule(0.0, 100.0, 1.0)
  const LerpSpeedAtMinZoomRule            := Rule(0.0, 100.0, 0.1)
  const LerpSpeedAtMaxZoomRule            := Rule(0.0, 100.0, 0.01)
  const LerpSpeedAtDefaultZoomRule        := Rule(0.0, 100.0, 0.02)
  const GoalToPlayerRotationLerpSpeedRule := Rule(0.0, 100.0, 0.05)

  /** The float settings, in the order of the class's field declarations. */
  const ValidationRules: seq<ValidationRule> := [
    PlayerPositionSmoothingRule,
    PushBackSpeedRule,
    FreeLookOrbitalLerpSpeedRule,
    FreeLookExitPositionLerpSpeedRule,
    FreeLookExitRotationLerpSpeedRule,
    MinCameraDistanceRule,
    FreeLookTransitionDurationRule,
    FirstPersonRotationLerpSpeedRule,
    CameraOffsetHeightRule,
    InitialCameraDistanceRule,
    FirstPersonPitchLimitRule,
    FreeLookPitchMinRule,
    FreeLookPitchMaxRule,
    ZoomMinDistanceRule,
    ZoomMaxDistanceRule,
    ZoomDefaultDistanceRule,
    LerpSpeedAtMinZoomRule,
    LerpSpeedAtMaxZoomRule,
    LerpSpeedAtDefaultZoomRule,
    GoalToPlayerRotationLerpSpeedRule
  ]

  /** The 20 float fields of the configuration, by name. */
  datatype FloatSettings = FloatSettings(
    playerPositionSmoothing: real,
    pushBackSpeed: real,
    freeLookOrbitalLerpSpeed: real,
    freeLookExitPositionLerpSpeed: real,
    freeLookExitRotationLerpSpeed: real,
    minCameraDistance: real,
    freeLookTransitionDuration: real,
    firstPersonRotationLerpSpeed: real,
    cameraOffsetHeight: real,
    initialCameraDistance: real,
    firstPersonPitchLimit: real,
    freeLookPitchMin: real,
    freeLookPitchMax: real,
    zoomMinDistance: real,
    zoomMaxDistance: real,
    zoomDefaultDistance: real,
    lerpSpeedAtMinZoom: real,
    lerpSpeedAtMaxZoom: real,
    lerpSpeedAtDefaultZoom: real,
    goalToPlayerRotationLerpSpeed: real)

  /** The float field that rule `k` names: what reflection reaches through the rule's field name. */
  function Get(fs: FloatSettings, k: nat): real
    requires k < FloatCount
  {
    match k
    case 0 => fs.playerPositionSmoothing
    case 1 => fs.pushBackSpeed
    case 2 => fs.freeLookOrbitalLerpSpeed
    case 3 => fs.freeLookExitPositionLerpSpeed
    case 4 => fs.freeLookExitRotationLerpSpeed
    case 5 => fs.minCameraDistance
    case 6 => fs.freeLookTransitionDuration
    case 7 => fs.firstPersonRotationLerpSpeed
    case 8 => fs.cameraOffsetHeight
    case 9 => fs.initialCameraDistance
    case 10 => fs.firstPersonPitchLimit
    case 11 => fs.freeLookPitchMin
    case 12 => fs.freeLookPitchMax
    case 13 => fs.zoomMinDistance
    case 14 => fs.zoomMaxDistance
    case 15 => fs.zoomDefaultDistance
    case 16 => fs.lerpSpeedAtMinZoom
    case 17 => fs.lerpSpeedAtMaxZoom
    case 18 => fs.lerpSpeedAtDefaultZoom
    case _ => fs.goalToPlayerRotationLerpSpeed
  }

  /** The float field that rule `k` names, set to `v`: FieldInfo.SetValue. */
  function With(fs: FloatSettings, k: nat, v: real): (r: FloatSettings)
    requires k < FloatCount
    ensures Get(r, k) == v
    ensures forall j :: 0 <= j < FloatCount && j != k ==> Get(r, j) == Get(fs, j)
  {
    match k
    case 0 => fs.(playerPositionSmoothing := v)
    case 1 => fs.(pushBackSpeed := v)
    case 2 => fs.(freeLookOrbitalLerpSpeed := v)
    case 3 => fs.(freeLookExitPositionLerpSpeed := v)
    case 4 => fs.(freeLookExitRotationLerpSpeed := v)
    case 5 => fs.(minCameraDistance := v)
    case 6 => fs.(freeLookTransitionDuration := v)
    case 7 => fs.(firstPersonRotationLerpSpeed := v)
    case 8 => fs.(cameraOffsetHeight := v)
    case 9 => fs.(initialCameraDistance := v)
    case 10 => fs.(firstPersonPitchLimit := v)
    case 11 => fs.(freeLookPitchMin := v)
    case 12 => fs.(freeLookPitchMax := v)
    case 13 => fs.(zoomMinDistance := v)
    case 14 => fs.(zoomMaxDistance := v)
    case 15 => fs.(zoomDefaultDistance := v)
    case 16 => fs.(lerpSpeedAtMinZoom := v)
    case 17 => fs.(lerpSpeedAtMaxZoom := v)
    case 18 => fs.(lerpSpeedAtDefaultZoom := v)
    case _ => fs.(goalToPlayerRotationLerpSpeed := v)
  }

  /** Two float records that agree on every rule's field are equal. */
  lemma FloatsExtensional(a: FloatSettings, b: FloatSettings)
    requires forall k :: 0 <= k < FloatCount ==> Get(a, k) == Get(b, k)
    ensures a == b
  {
    assert Get(a, 0) == Get(b, 0);
    assert Get(a, 1) == Get(b, 1);
    assert Get(a, 2) == Get(b, 2);
    assert Get(a, 3) == Get(b, 3);
    assert Get(a, 4) == Get(b, 4);
    assert Get(a, 5) == Get(b, 5);
    assert Get(a, 6) == Get(b, 6);
    assert Get(a, 7) == Get(b, 7);
    assert Get(a, 8) == Get(b, 8);
    assert Get(a, 9) == Get(b, 9);
    assert Get(a, 10) == Get(b, 10);
    assert Get(a, 11) == Get(b, 11);
    assert Get(a, 12) == Get(b, 12);
    assert Get(a, 13) == Get(b, 13);
    assert Get(a, 14) == Get(b, 14);
    assert Get(a, 15) == Get(b, 15);
    assert Get(a, 16) == Get(b, 16);
    assert Get(a, 17) == Get(b, 17);
    assert Get(a, 18) == Get(b, 18);
    assert Get(a, 19) == Get(b, 19);
  }

  /** The record a field-by-field pass has produced after `k` fields: the first `k` fields from `done`, the rest from `todo`. */
  ghost function Mix(done: FloatSettings, todo: FloatSettings, k: nat): (r: FloatSettings)
    requires k <= FloatCount
    ensures k == 0 ==> r == todo
    ensures k == FloatCount ==> r == done
  {
    FloatSettings(
      if 0 < k then done.playerPositionSmoothing else todo.playerPositionSmoothing,
      if 1 < k then done.pushBackSpeed else todo.pushBackSpeed,
      if 2 < k then done.freeLookOrbitalLerpSpeed else todo.freeLookOrbitalLerpSpeed,
      if 3 < k then done.freeLookExitPositionLerpSpeed else todo.freeLookExitPositionLerpSpeed,
      if 4 < k then done.freeLookExitRotationLerpSpeed else todo.freeLookExitRotationLerpSpeed,
      if 5 < k then done.minCameraDistance else todo.minCameraDistance,
      if 6 < k then done.freeLookTransitionDuration else todo.freeLookTransitionDuration,
      if 7 < k then done.firstPersonRotationLerpSpeed else todo.firstPersonRotationLerpSpeed,
      if 8 < k then done.cameraOffsetHeight else todo.cameraOffsetHeight,
      if 9 < k then done.initialCameraDistance else todo.initialCameraDistance,
      if 10 < k then done.firstPersonPitchLimit else todo.firstPersonPitchLimit,
      if 11 < k then done.freeLookPitchMin else todo.freeLookPitchMin,
      if 12 < k then done.freeLookPitchMax else todo.freeLookPitchMax,
      if 13 < k then done.zoomMinDistance else todo.zoomMinDistance,
      if 14 < k then done.zoomMaxDistance else todo.zoomMaxDistance,
      if 15 < k then done.zoomDefaultDistance else todo.zoomDefaultDistance,
      if 16 < k then done.lerpSpeedAtMinZoom else todo.lerpSpeedAtMinZoom,
      if 17 < k then done.lerpSpeedAtMaxZoom else todo.lerpSpeedAtMaxZoom,
      if 18 < k then done.lerpSpeedAtDefaultZoom else todo.lerpSpeedAtDefaultZoom,
      if 19 < k then done.goalToPlayerRotationLerpSpeed else todo.goalToPlayerRotationLerpSpeed)
  }

  /** One more step of a field-by-field pass: field `k` still holds its old value, and writing the new one extends the pass. */
  lemma MixStep(done: FloatSettings, todo: FloatSettings, k: nat)
    requires k < FloatCount
    ensures Get(Mix(done, todo, k), k) == Get(todo, k)
    ensures With(Mix(done, todo, k), k, Get(done, k)) == Mix(done, todo, k + 1)
    ensures Get(done, k) == Get(todo, k) ==> Mix(done, todo, k) == Mix(done, todo, k + 1)
  {
  }

  /** Applies `f` to every float together with its rule. */
  function MapRules(fs: FloatSettings, f: (ValidationRule, real) -> real): FloatSettings {
    FloatSettings(
      f(PlayerPositionSmoothingRule, fs.playerPositionSmoothing),
      f(PushBackSpeedRule, fs.pushBackSpeed),
      f(FreeLookOrbitalLerpSpeedRule, fs.freeLookOrbitalLerpSpeed),
      f(FreeLookExitPositionLerpSpeedRule, fs.freeLookExitPositionLerpSpeed),
      f(FreeLookExitRotationLerpSpeedRule, fs.freeLookExitRotationLerpSpeed),
      f(MinCameraDistanceRule, fs.minCameraDistance),
      f(FreeLookTransitionDurationRule, fs.freeLookTransitionDuration),
      f(FirstPersonRotationLerpSpeedRule, fs.firstPersonRotationLerpSpeed),
      f(CameraOffsetHeightRule, fs.cameraOffsetHeight),
      f(InitialCameraDistanceRule, fs.initialCameraDistance),
      f(FirstPersonPitchLimitRule, fs.firstPersonPitchLimit),
      f(FreeLookPitchMinRule, fs.freeLookPitchMin),
      f(FreeLookPitchMaxRule, fs.freeLookPitchMax),
      f(ZoomMinDistanceRule, fs.zoomMinDistance),
      f(ZoomMaxDistanceRule, fs.zoomMaxDistance),
      f(ZoomDefaultDistanceRule, fs.zoomDefaultDistance),
      f(LerpSpeedAtMinZoomRule, fs.lerpSpeedAtMinZoom),
      f(LerpSpeedAtMaxZoomRule, fs.lerpSpeedAtMaxZoom),
      f(LerpSpeedAtDefaultZoomRule, fs.lerpSpeedAtDefaultZoom),
      f(GoalToPlayerRotationLerpSpeedRule, fs.goalToPlayerRotationLerpSpeed))
  }

  /** Field `k` of a mapped record is `f` applied to field `k` of the original and to rule `k`. */
  lemma MapRulesAt(fs: FloatSettings, f: (ValidationRule, real) -> real, k: nat)
    requires k < FloatCount
    ensures Get(MapRules(fs, f), k) == f(ValidationRules[k], Get(fs, k))
  {
  }

  /** The value of a configuration object: its float fields, its three strings (`None` is null), and its flag. */
  datatype Settings = Settings(
    floats: FloatSettings,
    toggleCameraKey: Option<string>,
    freeLookKey: Option<string>,
    freeLookMode: Option<string>,
    rememberCameraState: bool)

  /** The field initialisers: each float starts at an impossible value so that a missing JSON key can be detected. */
  const InitialFloats := FloatSettings(
    -1.0, -1.0, -1.0, -1.0, -1.0, -1.0, -1.0, -1.0,
    -999.0, -1.0, -1.0, -999.0, -999.0,
    -1.0, -1.0, -1.0, -1.0, -1.0, -1.0, -1.0)

  /** A freshly constructed configuration object. */
  const InitialSettings := Settings(InitialFloats, None, None, None, false)

  /** The documented defaults: what a configuration with nothing usable in it becomes. */
  const DefaultSettings := Settings(
    FloatSettings(
      0.3, 0.01, 0.05, 0.1, 0.15, 2.0, 0.5, 0.1, 0.5, 3.0,
      90.0, -20.0, 80.0, 0.2, 16.0, 1.0, 0.1, 0.01, 0.02, 0.05),
    Some("c"), Some("rightButton"), Some("hold"), false)

  predicate InRange(r: ValidationRule, v: real) {
    r.minValue <= v <= r.maxValue
  }

  /** The test CheckForMissingFields uses for "this key was absent from the JSON". */
  predicate NearSentinel(r: ValidationRule, v: real) {
    UnityMath.Abs(v - r.sentinelValue) < 0.001
  }

  /**
   * The table is consistent: every default lies in its own range, and every
   * value that the missing-field check takes for the sentinel lies below the
   * range, so the field initialisers are all out of range.
   */
  lemma RuleTableConsistent()
    ensures |ValidationRules| == FloatCount
    ensures forall k :: 0 <= k < FloatCount ==> InRange(ValidationRules[k], ValidationRules[k].defaultValue)
    ensures forall k :: 0 <= k < FloatCount ==> Get(InitialFloats, k) == ValidationRules[k].sentinelValue
    ensures forall k, v :: 0 <= k < FloatCount && NearSentinel(ValidationRules[k], v) ==> v < ValidationRules[k].minValue
    ensures forall k :: 0 <= k < FloatCount ==> Get(DefaultSettings.floats, k) == ValidationRules[k].defaultValue
  {
  }

  // ---------------------------------------------------------------- key bindings

  /** A member of Unity's Key enumeration, by its numeric value. */
  datatype Key = Key(code: int)

  /** Key.None */
  const KeyNone := Key(0)
  /** Key.C */
  const KeyC := Key(17)

  /**
   * Enum.Parse(typeof(Key), name, ignoreCase: true): the key a name denotes,
   * or None where Enum.Parse throws.
   */
  type KeyParser = string -> Option<Key>

  /** string.IsNullOrEmpty */
  predicate IsNullOrEmpty(s: Option<string>) {
    s.None? || s.value == ""
  }

  /** The names of Unity's five mouse buttons, as the binding checks spell them. */
  const MouseButtonNames: set<string> := {"leftButton", "rightButton", "middleButton", "forwardButton", "backButton"}

  /** The binding names one of the five mouse buttons, ignoring case. */
  predicate IsMouseButtonName(b: string)
    ensures IsMouseButtonName(b) <==> exists n :: n in MouseButtonNames && EqualsIgnoreCase(b, n)
  {
    || EqualsIgnoreCase(b, "leftButton")
    || EqualsIgnoreCase(b, "rightButton")
    || EqualsIgnoreCase(b, "middleButton")
    || EqualsIgnoreCase(b, "forwardButton")
    || EqualsIgnoreCase(b, "backButton")
  }

  /** Whether a binding names a mouse button does not depend on the case of its letters. */
  lemma MouseButtonNameIgnoresCase(a: string, b: string)
    requires EqualsIgnoreCase(a, b)
    ensures IsMouseButtonName(a) <==> IsMouseButtonName(b)
  {
  }

  /** IsValidKeyBinding: a non-empty keyboard key name or mouse button name. */
  predicate IsValidKeyBinding(b: Option<string>, parse: KeyParser)
    ensures IsNullOrEmpty(b) ==> !IsValidKeyBinding(b, parse)
    ensures b.Some? && IsMouseButtonName(b.value) ==> IsValidKeyBinding(b, parse)
    ensures b.Some? && b.value != "" && parse(b.value).Some? ==> IsValidKeyBinding(b, parse)
    ensures IsValidKeyBinding(b, parse) && parse(b.value).None? ==> IsMouseButtonName(b.value)
  {
    !IsNullOrEmpty(b) && (parse(b.value).Some? || IsMouseButtonName(b.value))
  }

  /** The free-look mode is "hold" or "toggle", compared case-sensitively. */
  predicate IsValidFreeLookMode(m: Option<string>) {
    !IsNullOrEmpty(m) && (m.value == "hold" || m.value == "toggle")
  }

  // ---------------------------------------------------------------- ValidateAndCorrect

  /** One float after range validation. */
  function CorrectedFloat(r: ValidationRule, v: real): real {
    if v < r.minValue || v > r.maxValue then r.defaultValue else v
  }

  /** The configuration after ValidateAndCorrect. */
  function Validated(s: Settings, parse: KeyParser): (r: Settings)
    ensures IsValidKeyBinding(s.toggleCameraKey, parse) ==> r.toggleCameraKey == s.toggleCameraKey
    ensures !IsValidKeyBinding(s.toggleCameraKey, parse) ==> r.toggleCameraKey == Some("c")
    ensures IsValidKeyBinding(s.freeLookKey, parse) ==> r.freeLookKey == s.freeLookKey
    ensures !IsValidKeyBinding(s.freeLookKey, parse) ==> r.freeLookKey == Some("rightButton")
    ensures IsValidFreeLookMode(s.freeLookMode) ==> r.freeLookMode == s.freeLookMode
    ensures !IsValidFreeLookMode(s.freeLookMode) ==> r.freeLookMode == Some("hold")
    ensures r.rememberCameraState == s.rememberCameraState
  {
    Settings(
      MapRules(s.floats, CorrectedFloat),
      if IsNullOrEmpty(s.toggleCameraKey) || !IsValidKeyBinding(s.toggleCameraKey, parse) then Some("c") else s.toggleCameraKey,
      if IsNullOrEmpty(s.freeLookKey) || !IsValidKeyBinding(s.freeLookKey, parse) then Some("rightButton") else s.freeLookKey,
      if IsNullOrEmpty(s.freeLookMode) || !IsValidFreeLookMode(s.freeLookMode) then Some("hold") else s.freeLookMode,
      s.rememberCameraState)
  }

  /** Float `k` after validation: in its range, kept if it already was, and otherwise the rule's default. */
  lemma ValidatedFloat(s: Settings, parse: KeyParser, k: nat)
    requires k < FloatCount
    ensures var rule, v, w := ValidationRules[k], Get(s.floats, k), Get(Validated(s, parse).floats, k);
      && InRange(rule, w)
      && (InRange(rule, v) ==> w == v)
      && (!InRange(rule, v) ==> w == rule.defaultValue)
  {
    MapRulesAt(s.floats, CorrectedFloat, k);
    RuleTableConsistent();
  }

  /** After validation both bindings and the mode are valid, the toggle binding as long as "c" names a key. */
  lemma ValidatedStringsAreValid(s: Settings, parse: KeyParser)
    ensures var r := Validated(s, parse);
      && IsValidKeyBinding(r.freeLookKey, parse)
      && IsValidFreeLookMode(r.freeLookMode)
      && (parse("c").Some? ==> IsValidKeyBinding(r.toggleCameraKey, parse))
  {
    assert EqualsIgnoreCase("rightButton", "rightButton");
  }

  /** Whether ValidateAndCorrect finds something to correct, and so saves. */
  predicate ValidationNeedsSave(s: Settings, parse: KeyParser) {
    || (exists k :: 0 <= k < FloatCount && !InRange(ValidationRules[k], Get(s.floats, k)))
    || !IsValidKeyBinding(s.toggleCameraKey, parse)
    || !IsValidKeyBinding(s.freeLookKey, parse)
    || !IsValidFreeLookMode(s.freeLookMode)
  }

  /** A second validation changes nothing. */
  lemma ValidatedIsIdempotent(s: Settings, parse: KeyParser)
    ensures Validated(Validated(s, parse), parse) == Validated(s, parse)
  {
    var once := Validated(s, parse);
    var twice := Validated(once, parse);
    forall k | 0 <= k < FloatCount
      ensures Get(twice.floats, k) == Get(once.floats, k)
    {
      ValidatedFloat(s, parse, k);
      ValidatedFloat(once, parse, k);
    }
    FloatsExtensional(twice.floats, once.floats);
  }

  /** ... and, as long as "c" names a key, requests no save. */
  lemma ValidatedNeedsNoSave(s: Settings, parse: KeyParser)
    requires parse("c").Some?
    ensures !ValidationNeedsSave(Validated(s, parse), parse)
  {
    forall k | 0 <= k < FloatCount
      ensures InRange(ValidationRules[k], Get(Validated(s, parse).floats, k))
    {
      ValidatedFloat(s, parse, k);
    }
    ValidatedStringsAreValid(s, parse);
  }

  /** A save is requested exactly when validation changes the record, as long as "c" names a key. */
  lemma SaveIffCorrected(s: Settings, parse: KeyParser)
    requires parse("c").Some?
    ensures ValidationNeedsSave(s, parse) <==> Validated(s, parse) != s
  {
    var r := Validated(s, parse);
    ValidatedStringsAreValid(s, parse);
    if ValidationNeedsSave(s, parse) {
      if k :| 0 <= k < FloatCount && !InRange(ValidationRules[k], Get(s.floats, k)) {
        ValidatedFloat(s, parse, k);
        assert Get(r.floats, k) != Get(s.floats, k);
      }
    } else {
      forall k | 0 <= k < FloatCount
        ensures Get(r.floats, k) == Get(s.floats, k)
      {
        ValidatedFloat(s, parse, k);
      }
      FloatsExtensional(r.floats, s.floats);
    }
  }

  /** Without a key named "c" the default binding itself is rejected: a save is requested but nothing changes. */
  lemma UnparsableDefaultKeyIsSavedUnchanged(s: Settings, parse: KeyParser)
    requires parse("c").None?
    requires s.toggleCameraKey == Some("c")
    ensures ValidationNeedsSave(s, parse)
    ensures Validated(s, parse).toggleCameraKey == s.toggleCameraKey
  {
  }

  /** A freshly constructed configuration validates to exactly the documented defaults. */
  lemma FreshConfigValidatesToDefaults(parse: KeyParser)
    ensures Validated(InitialSettings, parse) == DefaultSettings
    ensures ValidationNeedsSave(InitialSettings, parse)
  {
    RuleTableConsistent();
    var r := Validated(InitialSettings, parse);
    forall k | 0 <= k < FloatCount
      ensures Get(r.floats, k) == Get(DefaultSettings.floats, k)
    {
      ValidatedFloat(InitialSettings, parse, k);
    }
    FloatsExtensional(r.floats, DefaultSettings.floats);
    assert !InRange(ValidationRules[0], Get(InitialSettings.floats, 0));
  }

  /**
   * The mode is compared case-sensitively: validation yields "toggle" exactly
   * when the record says "toggle", and "hold" for every other value, "Toggle"
   * and "HOLD" included.
   */
  lemma ToggleModeOnlyWhenExact(s: Settings, parse: KeyParser)
    ensures Validated(s, parse).freeLookMode == Some("toggle") <==> s.freeLookMode == Some("toggle")
    ensures Validated(s, parse).freeLookMode == Some("hold") <==> s.freeLookMode != Some("toggle")
  {
    assert "hold" != "toggle" by { assert "hold"[0] != "toggle"[0]; }
  }

  // ---------------------------------------------------------------- CheckForMissingFields

  /** One float after missing-field regeneration. */
  function FilledFloat(r: ValidationRule, v: real): real {
    if NearSentinel(r, v) then r.defaultValue else v
  }

  /** The configuration after CheckForMissingFields. */
  function Filled(s: Settings): (r: Settings)
    ensures r.toggleCameraKey == if IsNullOrEmpty(s.toggleCameraKey) then Some("c") else s.toggleCameraKey
    ensures r.freeLookKey == if IsNullOrEmpty(s.freeLookKey) then Some("rightButton") else s.freeLookKey
    ensures r.freeLookMode == if IsNullOrEmpty(s.freeLookMode) then Some("hold") else s.freeLookMode
    ensures r.rememberCameraState == s.rememberCameraState
  {
    Settings(
      MapRules(s.floats, FilledFloat),
      if IsNullOrEmpty(s.toggleCameraKey) then Some("c") else s.toggleCameraKey,
      if IsNullOrEmpty(s.freeLookKey) then Some("rightButton") else s.freeLookKey,
      if IsNullOrEmpty(s.freeLookMode) then Some("hold") else s.freeLookMode,
      s.rememberCameraState)
  }

  /** Float `k` after the missing-field check: the rule's default where the sentinel was, and unchanged elsewhere. */
  lemma FilledFloatAt(s: Settings, k: nat)
    requires k < FloatCount
    ensures var rule, v := ValidationRules[k], Get(s.floats, k);
      Get(Filled(s).floats, k) == if NearSentinel(rule, v) then rule.defaultValue else v
  {
    MapRulesAt(s.floats, FilledFloat, k);
  }

  /** Whether CheckForMissingFields finds a missing setting, and so saves. */
  predicate MissingNeedsSave(s: Settings) {
    || (exists k :: 0 <= k < FloatCount && NearSentinel(ValidationRules[k], Get(s.floats, k)))
    || IsNullOrEmpty(s.toggleCameraKey)
    || IsNullOrEmpty(s.freeLookKey)
    || IsNullOrEmpty(s.freeLookMode)
  }

  /**
   * Validation alone would have produced the same record: every value the
   * missing-field check replaces is out of range, and every string it fills
   * in is one validation rejects.
   */
  lemma MissingFieldCheckIsSubsumed(s: Settings, parse: KeyParser)
    ensures Validated(Filled(s), parse) == Validated(s, parse)
  {
    RuleTableConsistent();
    var a := Validated(Filled(s), parse);
    var b := Validated(s, parse);
    forall k | 0 <= k < FloatCount
      ensures Get(a.floats, k) == Get(b.floats, k)
    {
      FilledFloatAt(s, k);
      ValidatedFloat(Filled(s), parse, k);
      ValidatedFloat(s, parse, k);
      if NearSentinel(ValidationRules[k], Get(s.floats, k)) {
        assert !InRange(ValidationRules[k], Get(s.floats, k));
      }
    }
    FloatsExtensional(a.floats, b.floats);
  }

  // ---------------------------------------------------------------- LoadConfig

  /** What LoadConfig finds on disk, and what the JSON library made of it. */
  datatype ConfigFile =
    | NoFile
      /** the file was read and JsonConvert.PopulateObject filled the fresh object in */
    | Populated(parsed: Settings)
      /** reading or populating threw; `partial` is what population had written so far */
    | Unreadable(partial: Settings)

  /** The record LoadConfig hands to ValidateAndCorrect. */
  function BeforeValidation(file: ConfigFile): Settings {
    match file
    case NoFile => InitialSettings
    case Populated(p) => Filled(p)
    case Unreadable(p) => p
  }

  /** The documents LoadConfig saves before it validates. */
  function LoadSavesBeforeValidation(file: ConfigFile): seq<Settings> {
    match file
    case NoFile => [InitialSettings]
    case Populated(p) => if MissingNeedsSave(p) then [Filled(p)] else []
    case Unreadable(_) => []
  }

  /** The documents LoadConfig saves, in order. */
  function LoadSaves(file: ConfigFile, parse: KeyParser): seq<Settings> {
    var pre := BeforeValidation(file);
    LoadSavesBeforeValidation(file) + if ValidationNeedsSave(pre, parse) then [Validated(pre, parse)] else []
  }

  /** Whatever the file holds, the loaded configuration satisfies every rule. */
  lemma LoadedConfigIsValid(file: ConfigFile, parse: KeyParser)
    requires parse("c").Some?
    ensures var r := Validated(BeforeValidation(file), parse);
      && (forall k :: 0 <= k < FloatCount ==> InRange(ValidationRules[k], Get(r.floats, k)))
      && IsValidKeyBinding(r.toggleCameraKey, parse)
      && IsValidKeyBinding(r.freeLookKey, parse)
      && IsValidFreeLookMode(r.freeLookMode)
  {
    ValidatedNeedsNoSave(BeforeValidation(file), parse);
  }

  /** Without a file, the loaded configuration is the defaults and the last document saved is the defaults. */
  lemma NoFileLoadsDefaults(parse: KeyParser)
    ensures Validated(BeforeValidation(NoFile), parse) == DefaultSettings
    ensures LoadSaves(NoFile, parse) == [InitialSettings, DefaultSettings]
  {
    FreshConfigValidatesToDefaults(parse);
  }

  // ---------------------------------------------------------------- the object

  /**
   * The configuration object. Its twenty float fields are held together in
   * `floats` and reached by rule index through `Get` and `With`, as the
   * source reaches them by name through reflection.
   */
  class BetterReplaysConfig {
    var floats: FloatSettings
    var toggleCameraKey: Option<string>
    var freeLookKey: Option<string>
    var freeLookMode: Option<string>
    var rememberCameraState: bool
    /** Every document SaveConfig has written, oldest first. */
    var savedDocuments: seq<Settings>

    function State(): Settings
      reads this
    {
      Settings(floats, toggleCameraKey, freeLookKey, freeLookMode, rememberCameraState)
    }

    constructor ()
      ensures State() == InitialSettings && savedDocuments == []
    {
      floats := InitialFloats;
      toggleCameraKey := None;
      freeLookKey := None;
      freeLookMode := None;
      rememberCameraState := false;
      savedDocuments := [];
    }

    /** JsonConvert.PopulateObject: the object takes the values the library parsed. */
    method Populate(parsed: Settings)
      modifies this
      ensures State() == parsed && savedDocuments == old(savedDocuments)
    {
      floats := parsed.floats;
      toggleCameraKey, freeLookKey, freeLookMode := parsed.toggleCameraKey, parsed.freeLookKey, parsed.freeLookMode;
      rememberCameraState := parsed.rememberCameraState;
    }

    /** SaveConfig: the current record is written out. */
    method SaveConfig()
      modifies this
      ensures State() == old(State())
      ensures savedDocuments == old(savedDocuments) + [State()]
    {
      savedDocuments := savedDocuments + [State()];
    }

    /** Replaces every float that still holds its sentinel, and every null or empty string, by its default. */
    method CheckForMissingFields()
      modifies this
      ensures State() == Filled(old(State()))
      ensures savedDocuments == old(savedDocuments) + if MissingNeedsSave(old(State())) then [State()] else []
    {
      ghost var before := State();
      var needsSave := false;
      var k := 0;
      while k < FloatCount
        invariant 0 <= k <= FloatCount
        invariant floats == Mix(Filled(before).floats, before.floats, k)
        invariant State() == before.(floats := floats)
        invariant savedDocuments == old(savedDocuments)
        invariant needsSave == exists j :: 0 <= j < k && NearSentinel(ValidationRules[j], Get(before.floats, j))
      {
        var rule := ValidationRules[k];
        MixStep(Filled(before).floats, before.floats, k);
        FilledFloatAt(before, k);
        var value := Get(floats, k);
        if UnityMath.Abs(value - rule.sentinelValue) < 0.001 {
          floats := With(floats, k, rule.defaultValue);
          needsSave := true;
        }
        k := k + 1;
      }
      if IsNullOrEmpty(toggleCameraKey) {
        toggleCameraKey := Some("c");
        needsSave := true;
      }
      if IsNullOrEmpty(freeLookKey) {
        freeLookKey := Some("rightButton");
        needsSave := true;
      }
      if IsNullOrEmpty(freeLookMode) {
        freeLookMode := Some("hold");
        needsSave := true;
      }
      if needsSave {
        SaveConfig();
      }
    }

    /** Replaces every out-of-range float, invalid key binding and invalid free-look mode by its default. */
    method ValidateAndCorrect(parse: KeyParser)
      modifies this
      ensures State() == Validated(old(State()), parse)
      ensures savedDocuments == old(savedDocuments) + if ValidationNeedsSave(old(State()), parse) then [State()] else []
    {
      ghost var before := State();
      var needsSave := false;
      var k := 0;
      while k < FloatCount
        invariant 0 <= k <= FloatCount
        invariant floats == Mix(Validated(before, parse).floats, before.floats, k)
        invariant State() == before.(floats := floats)
        invariant savedDocuments == old(savedDocuments)
        invariant needsSave == exists j :: 0 <= j < k && !InRange(ValidationRules[j], Get(before.floats, j))
      {
        var rule := ValidationRules[k];
        MixStep(Validated(before, parse).floats, before.floats, k);
        ValidatedFloat(before, parse, k);
        var value := Get(floats, k);
        if value < rule.minValue || value > rule.maxValue {
          floats := With(floats, k, rule.defaultValue);
          needsSave := true;
        }
        k := k + 1;
      }
      if IsNullOrEmpty(toggleCameraKey) || !IsValidKeyBinding(toggleCameraKey, parse) {
        toggleCameraKey := Some("c");
        needsSave := true;
      }
      if IsNullOrEmpty(freeLookKey) || !IsValidKeyBinding(freeLookKey, parse) {
        freeLookKey := Some("rightButton");
        needsSave := true;
      }
      if IsNullOrEmpty(freeLookMode) || (freeLookMode.value != "hold" && freeLookMode.value != "toggle") {
        freeLookMode := Some("hold");
        needsSave := true;
      }
      if needsSave {
        SaveConfig();
      }
    }

    /** LoadConfig: a fresh object, filled from the file if there is one, then always validated. */
    static method LoadConfig(file: ConfigFile, parse: KeyParser) returns (config: BetterReplaysConfig)
      ensures fresh(config)
      ensures config.State() == Validated(BeforeValidation(file), parse)
      ensures config.savedDocuments == LoadSaves(file, parse)
    {
      config := new BetterReplaysConfig();
      match file {
        case NoFile =>
          config.SaveConfig();
        case Populated(p) =>
          config.Populate(p);
          config.CheckForMissingFields();
        case Unreadable(p) =>
          config.Populate(p);
      }
      config.ValidateAndCorrect(parse);
    }

    function IsToggleCameraMouseButton(): bool
      reads this
      requires toggleCameraKey.Some?
      ensures IsToggleCameraMouseButton() ==> forall parse: KeyParser :: IsValidKeyBinding(toggleCameraKey, parse)
    {
      IsMouseButtonName(toggleCameraKey.value)
    }

    function IsFreeLookMouseButton(): bool
      reads this
      requires freeLookKey.Some?
      ensures IsFreeLookMouseButton() ==> forall parse: KeyParser :: IsValidKeyBinding(freeLookKey, parse)
    {
      IsMouseButtonName(freeLookKey.value)
    }

    /** The keyboard key for the camera toggle: none for a mouse binding, C when the name does not parse. */
    function GetToggleCameraKey(parse: KeyParser): (r: Key)
      reads this
      requires toggleCameraKey.Some?
      ensures IsToggleCameraMouseButton() ==> r == KeyNone
      ensures !IsToggleCameraMouseButton() && parse(toggleCameraKey.value).Some? ==> r == parse(toggleCameraKey.value).value
      ensures !IsToggleCameraMouseButton() && parse(toggleCameraKey.value).None? ==> r == KeyC
    {
      if IsToggleCameraMouseButton() then KeyNone
      else parse(toggleCameraKey.value).GetOr(KeyC)
    }

    /** The keyboard key for free look: none for a mouse binding, and none when the name does not parse. */
    function GetFreeLookKey(parse: KeyParser): (r: Key)
      reads this
      requires freeLookKey.Some?
      ensures IsFreeLookMouseButton() ==> r == KeyNone
      ensures !IsFreeLookMouseButton() && parse(freeLookKey.value).Some? ==> r == parse(freeLookKey.value).value
      ensures !IsFreeLookMouseButton() && parse(freeLookKey.value).None? ==> r == KeyNone
    {
      if IsFreeLookMouseButton() then KeyNone
      else parse(freeLookKey.value).GetOr(KeyNone)
    }

    /** Whether free look toggles; a valid mode that is not "toggle" is "hold". */
    function IsFreeLookToggle(): bool
      reads this
      requires freeLookMode.Some?
      ensures IsFreeLookToggle() ==> IsValidFreeLookMode(freeLookMode)
      ensures IsValidFreeLookMode(freeLookMode) && !IsFreeLookToggle() ==> freeLookMode == Some("hold")
    {
      freeLookMode.value == "toggle"
    }
  }

  /**
   * Once the bindings are valid, neither key query falls back: a binding is
   * a mouse button (no key) or the key its name parses to.
   */
  lemma ValidBindingsNeverFallBack(c: BetterReplaysConfig, parse: KeyParser)
    requires IsValidKeyBinding(c.toggleCameraKey, parse) && IsValidKeyBinding(c.freeLookKey, parse)
    ensures c.GetToggleCameraKey(parse) == if c.IsToggleCameraMouseButton() then KeyNone else parse(c.toggleCameraKey.value).value
    ensures c.GetFreeLookKey(parse) == if c.IsFreeLookMouseButton() then KeyNone else parse(c.freeLookKey.value).value
  {
  }

  /**
   * The two key queries differ only in their fallbacks. For independent
   * bindings, a keyboard name that does not parse gives C for the camera
   * toggle and no key for free look. When both bindings are the same name, the
   * two queries agree exactly when that name is a mouse button or parses.
   */
  lemma KeyQueriesDifferOnlyInFallback(c: BetterReplaysConfig, parse: KeyParser)
    requires c.toggleCameraKey.Some? && c.freeLookKey.Some?
    ensures !c.IsToggleCameraMouseButton() && parse(c.toggleCameraKey.value).None? ==> c.GetToggleCameraKey(parse) == KeyC
    ensures !c.IsFreeLookMouseButton() && parse(c.freeLookKey.value).None? ==> c.GetFreeLookKey(parse) == KeyNone
    ensures c.toggleCameraKey == c.freeLookKey ==>
      (c.GetToggleCameraKey(parse) == c.GetFreeLookKey(parse)
       <==> c.IsToggleCameraMouseButton() || parse(c.toggleCameraKey.value).Some?)
  {
  }

  /** After validation the mode is one of the two accepted words, and IsFreeLookToggle holds exactly for "toggle". */
  lemma ValidatedModeIsHoldOrToggle(c: BetterReplaysConfig, s: Settings, parse: KeyParser)
    requires c.State() == Validated(s, parse)
    ensures c.freeLookMode == Some("hold") || c.freeLookMode == Some("toggle")
    ensures c.IsFreeLookToggle() <==> c.freeLookMode == Some("toggle")
  {
    ValidatedStringsAreValid(s, parse);
  }
}
