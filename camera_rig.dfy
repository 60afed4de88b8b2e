/*
 * The third-person camera rig (Assets/Code/Scripts/ThirdPersonCamera.cs).
 *
 * The rig keeps a pitch, a zoom distance, a head-bob phase timer and three
 * movement flags, and each frame writes the host camera's culling mask, the
 * camera's pitch angle and the camera joint's local position.  Engine queries
 * (input axes, keys, the physics raycast, the rigidbody's velocity, the frame
 * time, the host's head-bob tuning) are parameters of the methods; Mathf.Sin and Mathf.Cos are passed in as
 * functions, since only their use, not their values, matters here.
 */
module CameraRig {

  datatype Option<T> = None | Some(value: T)

  datatype Vec3 = Vec3(x: real, y: real, z: real)

  /** The rig's own tuning fields, which the source initialises in their declarations. */
  datatype RigSettings = RigSettings(
    invertCamera: bool,
    mouseSensitivity: real,
    maxLookAngle: real,
    minDistance: real,
    maxDistance: real,
    height: real)
  {
    /** The ranges under which the rig's invariants hold; the source's defaults satisfy them. */
    predicate Valid() {
      0.0 <= maxLookAngle && 0.0 < minDistance && minDistance + ZoomStep <= maxDistance
    }
  }

  /** The head-bob tuning the rig reads from the host first-person controller on every frame. */
  datatype BobTuning = BobTuning(
    bobSpeed: real,
    sprintSpeed: real,
    speedReduction: real,
    bobAmount: Vec3)
  {
    predicate Valid() {
      0.0 <= bobSpeed && 0.0 <= sprintSpeed && 0.0 <= speedReduction
    }
  }

  /** Settings within the ranges the rig's invariants need. */
  type ValidSettings = s: RigSettings | s.Valid() witness RigSettings(false, 2.0, 50.0, 0.2, 5.0, 0.0)

  /** The movement state sampled at the physics step. */
  datatype Motion = Motion(walking: bool, sprinting: bool, crouched: bool)

  /** The field initialisers of the source. */
  const Defaults := RigSettings(false, 2.0, 50.0, 0.2, 5.0, 0.0)

  /** Distance the camera jumps to beyond minDistance when it leaves the dead zone. */
  const ZoomStep: real := 0.1

  /** Margin added to the ray length and taken off the hit distance. */
  const RayMargin: real := 1.0

  /** Speed above which the player counts as walking. */
  const WalkThreshold: real := 0.1

  /** Scale applied to the controller's bob amount. */
  const BobScale: real := 0.1

  /** Mathf.Deg2Rad as the single-precision constant Unity defines. */
  const Deg2Rad: real := 0.0174532924

  // ---------------------------------------------------------------------------
  // Pitch

  /** Mathf.Clamp: the value, or the bound it lies beyond. */
  function Clamp(v: real, lo: real, hi: real): (r: real)
    ensures r == v || r == lo || r == hi
    ensures lo <= hi ==> lo <= r <= hi
    ensures lo <= v <= hi ==> r == v
    ensures v < lo ==> r == lo
    ensures lo <= v && hi < v ==> r == hi
  {
    if v < lo then lo else if v > hi then hi else v
  }

  /** The pitch after one frame of vertical mouse movement `mouseY`. */
  function NextPitch(s: RigSettings, pitch: real, mouseY: real): (r: real)
    ensures 0.0 <= s.maxLookAngle ==> -s.maxLookAngle <= r <= s.maxLookAngle
  {
    var raw := if !s.invertCamera then pitch - s.mouseSensitivity * mouseY
               else pitch + s.mouseSensitivity * mouseY;
    Clamp(raw, -s.maxLookAngle, s.maxLookAngle)
  }

  /** Inside the look range the mouse delta is subtracted, or added when the camera is inverted. */
  lemma PitchFollowsMouse(s: RigSettings, pitch: real, mouseY: real)
    ensures var raw := pitch - s.mouseSensitivity * mouseY;
            !s.invertCamera && -s.maxLookAngle <= raw <= s.maxLookAngle ==> NextPitch(s, pitch, mouseY) == raw
    ensures var raw := pitch + s.mouseSensitivity * mouseY;
            s.invertCamera && -s.maxLookAngle <= raw <= s.maxLookAngle ==> NextPitch(s, pitch, mouseY) == raw
    ensures var raw := if s.invertCamera then pitch + s.mouseSensitivity * mouseY
                       else pitch - s.mouseSensitivity * mouseY;
            0.0 <= s.maxLookAngle && raw > s.maxLookAngle ==> NextPitch(s, pitch, mouseY) == s.maxLookAngle
    ensures var raw := if s.invertCamera then pitch + s.mouseSensitivity * mouseY
                       else pitch - s.mouseSensitivity * mouseY;
            raw < -s.maxLookAngle ==> NextPitch(s, pitch, mouseY) == -s.maxLookAngle
  {
  }

  // ---------------------------------------------------------------------------
  // Zoom and its dead zone

  /** Below minDistance the camera is in the dead zone, i.e. first-person view. */
  predicate InDeadZone(s: RigSettings, d: real) {
    d < s.minDistance
  }

  /** The zoom distance after one frame with scroll-wheel delta `scroll`. */
  function NextDistance(s: RigSettings, d: real, scroll: real): (r: real)
    ensures s.Valid() ==> r <= s.maxDistance
    ensures InDeadZone(s, d) ==> r == 0.0 || r == s.minDistance + ZoomStep
  {
    if d < s.minDistance then
      (if scroll > 0.0 then s.minDistance + ZoomStep else 0.0)
    else
      (if d + scroll > s.maxDistance then s.maxDistance else d + scroll)
  }

  /** In the dead zone the distance is snapped to 0 unless the wheel scrolls forward. */
  lemma {:induction false} DeadZoneSnaps(s: RigSettings, d: real, scroll: real)
    requires 0.0 < s.minDistance && InDeadZone(s, d)
    ensures scroll <= 0.0 ==> NextDistance(s, d, scroll) == 0.0
    ensures scroll > 0.0 ==> NextDistance(s, d, scroll) == s.minDistance + ZoomStep
    ensures scroll > 0.0 <==> !InDeadZone(s, NextDistance(s, d, scroll))
  {
  }

  /** Outside the dead zone the scroll is added and capped at maxDistance, with no lower clamp. */
  lemma ZoomOutsideDeadZone(s: RigSettings, d: real, scroll: real)
    requires !InDeadZone(s, d)
    ensures d + scroll <= s.maxDistance ==> NextDistance(s, d, scroll) == d + scroll
    ensures d + scroll > s.maxDistance ==> NextDistance(s, d, scroll) == s.maxDistance
  {
  }

  /** The distance after a run of frames with the given scroll deltas. */
  function DistanceAfter(s: RigSettings, d: real, scrolls: seq<real>): real
    decreases |scrolls|
  {
    if scrolls == [] then d else DistanceAfter(s, NextDistance(s, d, scrolls[0]), scrolls[1..])
  }

  /** Once at zero, the distance stays zero for as long as the wheel is not scrolled forward. */
  lemma {:induction false} ZeroIsSticky(s: RigSettings, scrolls: seq<real>)
    requires 0.0 < s.minDistance
    requires forall i :: 0 <= i < |scrolls| ==> scrolls[i] <= 0.0
    ensures DistanceAfter(s, 0.0, scrolls) == 0.0
    decreases |scrolls|
  {
    if scrolls != [] {
      assert NextDistance(s, 0.0, scrolls[0]) == 0.0;
      ZeroIsSticky(s, scrolls[1..]);
    }
  }

  /** Every distance the rig reaches from a distance within range stays at or below maxDistance. */
  lemma {:induction false} DistanceStaysCapped(s: RigSettings, d: real, scrolls: seq<real>)
    requires s.Valid()
    requires d <= s.maxDistance
    ensures DistanceAfter(s, d, scrolls) <= s.maxDistance
    decreases |scrolls|
  {
    if scrolls != [] {
      DistanceStaysCapped(s, NextDistance(s, d, scrolls[0]), scrolls[1..]);
    }
  }

  /**
   * Without a lower clamp a backward scroll can leave the distance strictly
   * between 0 and minDistance (or below 0) for one frame; the next frame then
   * snaps it to 0 unless it scrolls forward.
   */
  lemma UndershootLastsOneFrame()
    ensures 0.0 < NextDistance(Defaults, 0.2, -0.1) < Defaults.minDistance
    ensures NextDistance(Defaults, 0.2, -1.0) < 0.0
    ensures NextDistance(Defaults, NextDistance(Defaults, 0.2, -0.1), 0.0) == 0.0
  {
  }

  // ---------------------------------------------------------------------------
  // View layers in the culling mask

  /** A layer index, 0 to 31, as LayerMask.NameToLayer returns for a defined layer. */
  type Layer = bv5

  /** `1 << layer` on the 32-bit mask. */
  function Bit(layer: Layer): bv32 {
    1 << layer
  }

  predicate HasLayer(mask: bv32, layer: Layer) {
    mask & Bit(layer) != 0
  }

  /** `mask | (1 << layer)`: the layer becomes visible. */
  function WithLayer(mask: bv32, layer: Layer): (r: bv32)
    ensures HasLayer(r, layer)
  {
    mask | Bit(layer)
  }

  /** `mask & ~(1 << layer)`: the layer becomes hidden. */
  function WithoutLayer(mask: bv32, layer: Layer): (r: bv32)
    ensures !HasLayer(r, layer)
  {
    mask & !Bit(layer)
  }

  /**
   * The mask after the view switch: in the dead zone the first-person layer is
   * turned on and then the third-person layer off; otherwise the first-person
   * layer off and then the third-person layer on.
   */
  function ViewMask(mask: bv32, deadZone: bool, firstPerson: Layer, thirdPerson: Layer): (r: bv32)
    ensures firstPerson != thirdPerson ==>
              (HasLayer(r, firstPerson) <==> deadZone) && (HasLayer(r, thirdPerson) <==> !deadZone)
  {
    if deadZone then WithoutLayer(WithLayer(mask, firstPerson), thirdPerson)
    else WithLayer(WithoutLayer(mask, firstPerson), thirdPerson)
  }

  /** Exactly one of the two view layers is visible after a view switch. */
  lemma ExactlyOneView(mask: bv32, deadZone: bool, firstPerson: Layer, thirdPerson: Layer)
    requires firstPerson != thirdPerson
    ensures HasLayer(ViewMask(mask, deadZone, firstPerson, thirdPerson), firstPerson)
            != HasLayer(ViewMask(mask, deadZone, firstPerson, thirdPerson), thirdPerson)
  {
  }

  /** Whatever the view switch does, the layers other than the two views keep their visibility. */
  lemma ViewSwitchKeepsOtherLayers(mask: bv32, deadZone: bool, firstPerson: Layer, thirdPerson: Layer, k: Layer)
    requires k != firstPerson && k != thirdPerson
    ensures HasLayer(ViewMask(mask, deadZone, firstPerson, thirdPerson), k) <==> HasLayer(mask, k)
  {
    if deadZone {
      var m := WithLayer(mask, firstPerson);
      SetKeepsOtherLayers(mask, firstPerson, k);
      ClearKeepsOtherLayers(m, thirdPerson, k);
    } else {
      var m := WithoutLayer(mask, firstPerson);
      ClearKeepsOtherLayers(mask, firstPerson, k);
      SetKeepsOtherLayers(m, thirdPerson, k);
    }
  }

  /** Turning one layer on leaves every other layer as it was. */
  lemma SetKeepsOtherLayers(mask: bv32, layer: Layer, k: Layer)
    requires k != layer
    ensures HasLayer(WithLayer(mask, layer), k) == HasLayer(mask, k)
  {
    BitsDisjoint(layer, k);
    var b, c := Bit(layer), Bit(k);
    assert (mask | b) & c == (mask & c) | (b & c);
  }

  /** Turning one layer off leaves every other layer as it was. */
  lemma ClearKeepsOtherLayers(mask: bv32, layer: Layer, k: Layer)
    requires k != layer
    ensures HasLayer(WithoutLayer(mask, layer), k) == HasLayer(mask, k)
  {
    BitsDisjoint(layer, k);
    var b, c := Bit(layer), Bit(k);
    assert (mask & !b) & c == mask & (c & !b);
    assert c & !b == c;
  }

  lemma BitsDisjoint(a: Layer, b: Layer)
    requires a != b
    ensures Bit(a) & Bit(b) == 0
  {
  }

  /** `mask - (1 << layer)`, the subtraction Start performs on the mask. */
  function MinusLayer(mask: bv32, firstPerson: Layer): bv32 {
    mask - Bit(firstPerson)
  }

  /** The subtraction wraps around modulo 2^32: adding the bit back always restores the mask. */
  lemma MinusLayerUndone(mask: bv32, firstPerson: Layer)
    ensures MinusLayer(mask, firstPerson) + Bit(firstPerson) == mask
  {
    var b := Bit(firstPerson);
    assert MinusLayer(mask, firstPerson) == mask - b;
    assert (mask - b) + b == mask;
  }

  /** When the layer is on, subtracting its bit is the same as clearing it. */
  lemma StartClearsSetLayer(mask: bv32, firstPerson: Layer)
    requires HasLayer(mask, firstPerson)
    ensures MinusLayer(mask, firstPerson) == WithoutLayer(mask, firstPerson)
    ensures !HasLayer(MinusLayer(mask, firstPerson), firstPerson)
  {
  }

  /**
   * When the layer is already off, the subtraction borrows: the layer is turned
   * on instead, the layers below it keep their bits, and the borrow reaches the
   * layers above it: at least one of them changes.
   */
  lemma StartBorrowsFromClearLayer(mask: bv32, firstPerson: Layer)
    requires !HasLayer(mask, firstPerson)
    ensures HasLayer(MinusLayer(mask, firstPerson), firstPerson)
    ensures MinusLayer(mask, firstPerson) != WithoutLayer(mask, firstPerson)
    ensures MinusLayer(mask, firstPerson) & (Bit(firstPerson) - 1) == mask & (Bit(firstPerson) - 1)
    ensures firstPerson < 31 ==>
              MinusLayer(mask, firstPerson) >> (firstPerson + 1) != mask >> (firstPerson + 1)
  {
  }

  /**
   * An instance of the borrow: with layer 1 the only visible layer and the
   * first-person view on layer 0, Start shows layer 0 and hides layer 1.
   */
  lemma StartHidesAnotherLayer()
    ensures HasLayer(2, 1) && !HasLayer(2, 0)
    ensures HasLayer(MinusLayer(2, 0), 0) && !HasLayer(MinusLayer(2, 0), 1)
  {
  }

  // ---------------------------------------------------------------------------
  // Orbit offset and occlusion

  /** The joint offset on the vertical circle of `radius` behind the player, for a camera angle in degrees. */
  function OrbitOffset(height: real, radius: real, angle: real, sin: real -> real, cos: real -> real): (v: Vec3)
    ensures v.x == 0.0
    ensures radius == 0.0 ==> v == Vec3(0.0, height, 0.0)
  {
    var theta := (angle - 90.0) * Deg2Rad;
    Vec3(0.0, height + radius * cos(theta), radius * sin(theta))
  }

  /** The radius the joint is placed at: the zoom distance, or the clearance before an obstacle. */
  function OrbitRadius(s: RigSettings, distance: real, hit: Option<real>): (r: real)
    ensures hit.None? ==> r == distance
    ensures hit.Some? ==> r >= s.minDistance && r >= hit.value - RayMargin
    ensures hit.Some? ==> r == s.minDistance || r == hit.value - RayMargin
  {
    match hit
    case None => distance
    case Some(h) => if h - RayMargin > s.minDistance then h - RayMargin else s.minDistance
  }

  /**
   * A hit within the ray's length pulls the joint in when the distance is at
   * least minDistance; in an undershoot frame, with the distance below
   * minDistance, a hit moves the joint out to minDistance instead.
   */
  lemma OcclusionRadius(s: RigSettings, distance: real, h: real)
    requires h <= distance + RayMargin
    ensures s.minDistance <= distance ==> OrbitRadius(s, distance, Some(h)) <= distance
    ensures distance < s.minDistance ==> OrbitRadius(s, distance, Some(h)) == s.minDistance
  {
  }

  /**
   * Where the joint goes before the head bob: on the orbit at the zoom
   * distance, or pulled in to the clearance when the probe ray from that
   * position hits something within the distance plus the margin.
   */
  function OrbitTarget(s: RigSettings, distance: real, angle: real, castRay: (Vec3, real) -> Option<real>,
                       sin: real -> real, cos: real -> real): (v: Vec3)
    ensures v.x == 0.0
    ensures castRay(OrbitOffset(s.height, distance, angle, sin, cos), distance + RayMargin).None? ==>
              v == OrbitOffset(s.height, distance, angle, sin, cos)
  {
    var probe := OrbitOffset(s.height, distance, angle, sin, cos);
    OrbitOffset(s.height, OrbitRadius(s, distance, castRay(probe, distance + RayMargin)), angle, sin, cos)
  }

  // ---------------------------------------------------------------------------
  // Movement classification

  /** The movement flags as FixedUpdate recomputes them from scratch. */
  function Classify(speed: real, vx: real, vz: real, sprintHeld: bool, crouchHeld: bool,
                    enableSprint: bool, enableCrouch: bool): (m: Motion)
    ensures m.walking <==> speed > WalkThreshold
    ensures !(m.sprinting && m.crouched)
    ensures m.sprinting ==> enableSprint && sprintHeld && (vx != 0.0 || vz != 0.0)
    ensures m.crouched ==> enableCrouch && crouchHeld && (vx != 0.0 || vz != 0.0)
    ensures m.crouched ==> !(enableSprint && sprintHeld)
  {
    var moving := vx != 0.0 || vz != 0.0;
    var sprintKey := enableSprint && sprintHeld;
    Motion(speed > WalkThreshold,
           sprintKey && moving,
           !sprintKey && enableCrouch && crouchHeld && moving)
  }

  /** The flags are set whenever their conditions hold: sprinting wins over crouching. */
  lemma ClassifyComplete(speed: real, vx: real, vz: real, sprintHeld: bool, crouchHeld: bool,
                         enableSprint: bool, enableCrouch: bool)
    requires vx != 0.0 || vz != 0.0
    ensures enableSprint && sprintHeld ==>
              Classify(speed, vx, vz, sprintHeld, crouchHeld, enableSprint, enableCrouch).sprinting
    ensures !(enableSprint && sprintHeld) && enableCrouch && crouchHeld ==>
              Classify(speed, vx, vz, sprintHeld, crouchHeld, enableSprint, enableCrouch).crouched
  {
  }

  // ---------------------------------------------------------------------------
  // Head bob

  /** The rate at which the bob phase advances in a movement state. */
  function BobRate(t: BobTuning, sprinting: bool, crouched: bool): (r: real)
    ensures t.Valid() ==> r >= 0.0
    ensures sprinting ==> r == t.bobSpeed + t.sprintSpeed
  {
    if sprinting then t.bobSpeed + t.sprintSpeed
    else if crouched then t.bobSpeed * t.speedReduction
    else t.bobSpeed
  }

  /** Sprinting bobs faster than walking and crouching slower, for positive tuning. */
  lemma BobRatesOrdered(t: BobTuning)
    requires t.bobSpeed > 0.0 && t.sprintSpeed > 0.0 && t.speedReduction < 1.0
    ensures BobRate(t, true, false) > BobRate(t, false, false) > BobRate(t, false, true)
  {
    assert BobRate(t, true, false) == t.bobSpeed + t.sprintSpeed;
    assert BobRate(t, false, false) == t.bobSpeed;
    assert BobRate(t, false, true) == t.bobSpeed * t.speedReduction;
    ProductSign(t.bobSpeed, 1.0 - t.speedReduction);
    assert t.bobSpeed * (1.0 - t.speedReduction) == t.bobSpeed - t.bobSpeed * t.speedReduction;
  }

  lemma ProductSign(a: real, b: real)
    ensures 0.0 <= a && 0.0 <= b ==> 0.0 <= a * b
    ensures 0.0 < a && 0.0 < b ==> 0.0 < a * b
  {
  }

  /** The bob phase after one frame of length `dt`. */
  function NextTimer(timer: real, walking: bool, rate: real, dt: real): (r: real)
    ensures !walking ==> r == 0.0
    ensures walking && 0.0 <= dt && 0.0 <= rate ==> r >= timer
    ensures walking && 0.0 < dt && 0.0 < rate ==> r > timer
  {
    if walking then
      ProductSign(dt, rate);
      timer + dt * rate
    else 0.0
  }

  /** For equal elapsed time, a faster state moves the phase further. */
  lemma FasterRateAdvancesFurther(timer: real, dt: real, slow: real, fast: real)
    requires 0.0 < dt && slow < fast
    ensures NextTimer(timer, true, slow, dt) < NextTimer(timer, true, fast, dt)
  {
    ProductSign(dt, fast - slow);
    assert 0.0 < dt * (fast - slow);
    assert dt * (fast - slow) == dt * fast - dt * slow;
    assert dt * slow < dt * fast;
    assert NextTimer(timer, true, slow, dt) == timer + dt * slow;
    assert NextTimer(timer, true, fast, dt) == timer + dt * fast;
  }

  /** A fraction of a quantity lies between zero and the quantity. */
  lemma ScaleWithin(x: real, c: real)
    requires 0.0 <= c <= 1.0
    ensures 0.0 <= x ==> 0.0 <= x * c <= x
    ensures x <= 0.0 ==> x <= x * c <= 0.0
  {
    if 0.0 <= x {
      ProductSign(x, c);
      ProductSign(x, 1.0 - c);
      assert x * (1.0 - c) == x - x * c;
    } else {
      ProductSign(-x, c);
      ProductSign(-x, 1.0 - c);
      assert (-x) * c == -(x * c);
      assert (-x) * (1.0 - c) == x * c - x;
    }
  }

  /** Mathf.Lerp: `a + (b - a) * t` with `t` clamped to [0, 1]. */
  function Lerp(a: real, b: real, t: real): (r: real)
    ensures a <= b ==> a <= r <= b
    ensures b <= a ==> b <= r <= a
    ensures t <= 0.0 ==> r == a
    ensures t >= 1.0 ==> r == b
  {
    if t <= 0.0 then a
    else if t >= 1.0 then b
    else ScaleWithin(b - a, t); a + (b - a) * t
  }

  function Dist(a: real, b: real): real {
    if a <= b then b - a else a - b
  }

  /** Vector3 easing, Mathf.Lerp on each axis: it never passes the target on any axis. */
  function Ease(previous: Vec3, target: Vec3, k: real): (v: Vec3)
    ensures Dist(v.x, target.x) <= Dist(previous.x, target.x)
    ensures Dist(v.y, target.y) <= Dist(previous.y, target.y)
    ensures Dist(v.z, target.z) <= Dist(previous.z, target.z)
    ensures k <= 0.0 ==> v == previous
    ensures k >= 1.0 ==> v == target
  {
    Vec3(Lerp(previous.x, target.x, k), Lerp(previous.y, target.y, k), Lerp(previous.z, target.z, k))
  }

  /** The controller's bob amount scaled by 0.1: a tenth of it on each axis. */
  function BobAmplitude(t: BobTuning): (a: Vec3)
    ensures a.x * 10.0 == t.bobAmount.x && a.y * 10.0 == t.bobAmount.y && a.z * 10.0 == t.bobAmount.z
  {
    Vec3(t.bobAmount.x * BobScale, t.bobAmount.y * BobScale, t.bobAmount.z * BobScale)
  }

  /** The target moved by `wave` times the amplitude on each axis. */
  function Displace(target: Vec3, amplitude: Vec3, wave: real): (v: Vec3)
    ensures wave == 0.0 ==> v == target
    ensures amplitude == Vec3(0.0, 0.0, 0.0) ==> v == target
  {
    Vec3(target.x + wave * amplitude.x, target.y + wave * amplitude.y, target.z + wave * amplitude.z)
  }

  /**
   * The joint position the head bob produces for a target offset: displaced by
   * the sine of the phase while walking, eased toward the target otherwise.
   */
  function BobbedJoint(t: BobTuning, walking: bool, timer: real, target: Vec3, previous: Vec3,
                       dt: real, sin: real -> real): (v: Vec3)
    ensures walking && sin(timer) == 0.0 ==> v == target
  {
    if walking then Displace(target, BobAmplitude(t), sin(timer))
    else Ease(previous, target, dt * t.bobSpeed)
  }

  /**
   * Once the player stops, the joint settles: it never moves away from the
   * target on any axis, stays put for a step of 0 or less, and reaches the
   * target for a step of 1 or more.
   */
  lemma IdleJointSettles(t: BobTuning, timer: real, target: Vec3, previous: Vec3, dt: real, sin: real -> real)
    ensures var v := BobbedJoint(t, false, timer, target, previous, dt, sin);
            Dist(v.x, target.x) <= Dist(previous.x, target.x) &&
            Dist(v.y, target.y) <= Dist(previous.y, target.y) &&
            Dist(v.z, target.z) <= Dist(previous.z, target.z)
    ensures dt * t.bobSpeed <= 0.0 ==> BobbedJoint(t, false, timer, target, previous, dt, sin) == previous
    ensures dt * t.bobSpeed >= 1.0 ==> BobbedJoint(t, false, timer, target, previous, dt, sin) == target
  {
    var k := dt * t.bobSpeed;
    assert BobbedJoint(t, false, timer, target, previous, dt, sin) == Ease(previous, target, k);
  }

  // ---------------------------------------------------------------------------
  // The component

  class ThirdPersonCamera {
    const settings: ValidSettings
    /** LayerMask.NameToLayer("FirstPersonView") and ("ThirdPersonView"). */
    const firstPersonView: Layer
    const thirdPersonView: Layer

    var pitch: real
    var distance: real
    var timer: real
    var isWalking: bool
    var isSprinting: bool
    var isCrouched: bool

    // State of the host controller that the rig writes.
    /** playerCamera.cullingMask */
    var cullingMask: bv32
    /** playerCamera.transform.localEulerAngles.x */
    var cameraAngle: real
    /** joint.localPosition */
    var joint: Vec3
    var cameraCanMove: bool
    var enableHeadBob: bool

    ghost predicate Valid()
      reads this
    {
      firstPersonView != thirdPersonView &&
      -settings.maxLookAngle <= pitch <= settings.maxLookAngle &&
      distance <= settings.maxDistance &&
      !(isSprinting && isCrouched)
    }

    /** The component as the field initialisers leave it, over the host's current state. */
    constructor (settings: ValidSettings, firstPersonView: Layer, thirdPersonView: Layer,
                 cullingMask: bv32, cameraAngle: real, joint: Vec3, cameraCanMove: bool, enableHeadBob: bool)
      requires firstPersonView != thirdPersonView
      ensures Valid()
      ensures this.settings == settings
      ensures this.firstPersonView == firstPersonView && this.thirdPersonView == thirdPersonView
      ensures pitch == 0.0 && distance == 0.0 && timer == 0.0
      ensures !isWalking && !isSprinting && !isCrouched
      ensures this.cullingMask == cullingMask && this.cameraAngle == cameraAngle && this.joint == joint
      ensures this.cameraCanMove == cameraCanMove && this.enableHeadBob == enableHeadBob
    {
      this.settings := settings;
      this.firstPersonView := firstPersonView;
      this.thirdPersonView := thirdPersonView;
      pitch, distance, timer := 0.0, 0.0, 0.0;
      isWalking, isSprinting, isCrouched := false, false, false;
      this.cullingMask := cullingMask;
      this.cameraAngle := cameraAngle;
      this.joint := joint;
      this.cameraCanMove := cameraCanMove;
      this.enableHeadBob := enableHeadBob;
    }

    /** Start: hide the first-person layer by subtracting its bit from the mask. */
    method Start()
      requires Valid()
      modifies this`cullingMask
      ensures Valid()
      ensures cullingMask == MinusLayer(old(cullingMask), firstPersonView)
      ensures HasLayer(old(cullingMask), firstPersonView) ==>
                cullingMask == WithoutLayer(old(cullingMask), firstPersonView)
    {
      cullingMask := MinusLayer(cullingMask, firstPersonView);
      if HasLayer(old(cullingMask), firstPersonView) {
        StartClearsSetLayer(old(cullingMask), firstPersonView);
      }
    }

    /**
     * One rendered frame: pitch from the vertical mouse delta, zoom from the
     * scroll delta, the view switch, the occlusion check with `castRay`
     * (direction and maximum length in, hit distance out), and the head bob.
     */
    method Update(mouseY: real, scroll: real, dt: real, tuning: BobTuning,
                  castRay: (Vec3, real) -> Option<real>, sin: real -> real, cos: real -> real)
      requires Valid()
      modifies this`cameraCanMove, this`enableHeadBob, this`pitch, this`distance, this`cullingMask,
               this`cameraAngle, this`timer, this`joint
      ensures Valid()
      ensures !cameraCanMove && !enableHeadBob
      ensures pitch == NextPitch(settings, old(pitch), mouseY)
      ensures cameraAngle == pitch
      ensures distance == NextDistance(settings, old(distance), scroll)
      ensures cullingMask ==
                ViewMask(old(cullingMask), InDeadZone(settings, old(distance)), firstPersonView, thirdPersonView)
      ensures timer == NextTimer(old(timer), isWalking, BobRate(tuning, isSprinting, isCrouched), dt)
      ensures joint == BobbedJoint(tuning, isWalking, timer,
                                   OrbitTarget(settings, distance, old(cameraAngle), castRay, sin, cos),
                                   old(joint), dt, sin)
    {
      cameraCanMove := false;
      enableHeadBob := false;

      Look(mouseY);
      Zoom(scroll);
      Pose(dt, tuning, castRay, sin, cos);
    }

    /** The rest of the frame: place the joint, apply the pitch to the camera, head-bob the joint. */
    method Pose(dt: real, tuning: BobTuning, castRay: (Vec3, real) -> Option<real>, sin: real -> real, cos: real -> real)
      requires Valid()
      modifies this`cameraAngle, this`timer, this`joint
      ensures Valid()
      ensures cameraAngle == pitch
      ensures timer == NextTimer(old(timer), isWalking, BobRate(tuning, isSprinting, isCrouched), dt)
      ensures joint == BobbedJoint(tuning, isWalking, timer,
                                   OrbitTarget(settings, distance, old(cameraAngle), castRay, sin, cos),
                                   old(joint), dt, sin)
    {
      var jointPosition := Aim(castRay, sin, cos);
      cameraAngle := pitch;
      var bobbed := HeadBob(jointPosition, dt, tuning, sin);
      joint := bobbed;
    }

    /** The joint position on the orbit, pulled in before an obstacle the probe ray hits. */
    method Aim(castRay: (Vec3, real) -> Option<real>, sin: real -> real, cos: real -> real)
      returns (jointPosition: Vec3)
      ensures jointPosition == OrbitTarget(settings, distance, cameraAngle, castRay, sin, cos)
    {
      jointPosition := OrbitOffset(settings.height, distance, cameraAngle, sin, cos);
      var hit := castRay(jointPosition, distance + RayMargin);
      if hit.Some? {
        var clearance := if hit.value - RayMargin > settings.minDistance then hit.value - RayMargin
                         else settings.minDistance;
        jointPosition := OrbitOffset(settings.height, clearance, cameraAngle, sin, cos);
      }
    }

    /** Pitch from the vertical mouse delta, clamped to the look range. */
    method Look(mouseY: real)
      requires Valid()
      modifies this`pitch
      ensures Valid()
      ensures pitch == NextPitch(settings, old(pitch), mouseY)
    {
      if !settings.invertCamera {
        pitch := pitch - settings.mouseSensitivity * mouseY;
      } else {
        pitch := pitch + settings.mouseSensitivity * mouseY;
      }
      pitch := Clamp(pitch, -settings.maxLookAngle, settings.maxLookAngle);
    }

    /** Zoom from the scroll delta and the view switch that goes with it. */
    method Zoom(scroll: real)
      requires Valid()
      modifies this`distance, this`cullingMask
      ensures Valid()
      ensures distance == NextDistance(settings, old(distance), scroll)
      ensures cullingMask ==
                ViewMask(old(cullingMask), InDeadZone(settings, old(distance)), firstPersonView, thirdPersonView)
    {
      if distance < settings.minDistance {
        distance := 0.0;
        cullingMask := WithLayer(cullingMask, firstPersonView);
        cullingMask := WithoutLayer(cullingMask, thirdPersonView);
        if scroll > 0.0 {
          distance := settings.minDistance + ZoomStep;
        }
      } else {
        distance := distance + scroll;
        if distance > settings.maxDistance {
          distance := settings.maxDistance;
        }
        cullingMask := WithoutLayer(cullingMask, firstPersonView);
        cullingMask := WithLayer(cullingMask, thirdPersonView);
      }
    }

    /** One physics step: the movement flags, recomputed from false. */
    method FixedUpdate(speed: real, vx: real, vz: real, sprintHeld: bool, crouchHeld: bool,
                       enableSprint: bool, enableCrouch: bool)
      requires Valid()
      modifies this`isWalking, this`isSprinting, this`isCrouched
      ensures Valid()
      ensures Motion(isWalking, isSprinting, isCrouched)
              == Classify(speed, vx, vz, sprintHeld, crouchHeld, enableSprint, enableCrouch)
    {
      isSprinting := false;
      isCrouched := false;
      isWalking := false;

      if speed > WalkThreshold {
        isWalking := true;
      }

      if enableSprint && sprintHeld {
        if vx != 0.0 || vz != 0.0 {
          isSprinting := true;
        }
      } else if enableCrouch && crouchHeld {
        if vx != 0.0 || vz != 0.0 {
          isCrouched := true;
        }
      }
    }

    /** Advance or reset the bob phase and produce the joint position for `target`. */
    method HeadBob(target: Vec3, dt: real, tuning: BobTuning, sin: real -> real) returns (position: Vec3)
      requires Valid()
      modifies this`timer
      ensures Valid()
      ensures timer == NextTimer(old(timer), isWalking, BobRate(tuning, isSprinting, isCrouched), dt)
      ensures position == BobbedJoint(tuning, isWalking, timer, target, joint, dt, sin)
    {
      AdvanceTimer(dt, tuning);
      if isWalking {
        position := Displace(target, BobAmplitude(tuning), sin(timer));
      } else {
        position := Ease(joint, target, dt * tuning.bobSpeed);
      }
    }

    /** The phase step of the head bob: sprinting before crouching before walking, reset when idle. */
    method AdvanceTimer(dt: real, tuning: BobTuning)
      requires Valid()
      modifies this`timer
      ensures Valid()
      ensures timer == NextTimer(old(timer), isWalking, BobRate(tuning, isSprinting, isCrouched), dt)
    {
      if isWalking {
        if isSprinting {
          timer := timer + dt * (tuning.bobSpeed + tuning.sprintSpeed);
        } else if isCrouched {
          timer := timer + dt * (tuning.bobSpeed * tuning.speedReduction);
        } else {
          timer := timer + dt * tuning.bobSpeed;
        }
      } else {
        timer := 0.0;
      }
    }
  }

  /** The source's defaults satisfy the ranges the invariants need. */
  lemma DefaultsValid()
    ensures Defaults.Valid()
  {
  }

  /** Worked cases with the default settings. */
  lemma DefaultExamples()
    ensures NextDistance(Defaults, 0.1, 0.5) == 0.3
    ensures NextDistance(Defaults, 4.9, 0.5) == 5.0
    ensures NextPitch(Defaults, 48.0, 10.0) == 28.0
    ensures NextPitch(Defaults, 48.0, -10.0) == 50.0
  {
  }
}
