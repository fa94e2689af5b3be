/**
 * The per-archetype tuning record of a car (CarData) and the lookup that the
 * controller uses to pick one record from its configured list.
 */
module CarConfig {

  import opened Wrappers

  /** Which axle receives drive torque. The controller only distinguishes front-wheel drive from everything else. */
  datatype DriveType = FrontWheelDrive | RearWheelDrive

  /** A top speed that can divide: a record with a zero top speed is outside the model. */
  type NonZeroReal = r: real | r != 0.0 witness 1.0

  /** The archetype key of a tuning record; its enumeration members are identified here by their ordinal. */
  type CarDataType = nat

  /**
   * One tuning record, immutable while the simulation runs. The torque curve is the
   * engine's animation curve, kept abstract: only its value at a normalised speed is used.
   * The raycast layer mask is not part of the model (the raycast is an input).
   */
  datatype CarData = CarData(
    carDataType: CarDataType,
    carDriveType: DriveType,
    wheelRotationSpeed: real,
    maxTyreRotation: real,
    springStrength: real,
    springDamper: real,
    suspensionRestDistance: real,
    tyreGripFactor: real,
    tyreMass: real,
    torqueToApply: real,
    maxCarSpeed: NonZeroReal,
    speedXTorqueCurve: real -> real,
    reverseAccelerationMultiplier: real,
    staticBraceValue: real,
    frontWheelBrakeFactor: real,
    backWheelBrakeFactor: real)

  /** `k` is the first position in `carDatas` whose record has type `t`. */
  ghost predicate IsFirstOfType(carDatas: seq<CarData>, t: CarDataType, k: int)
  {
    0 <= k < |carDatas| && carDatas[k].carDataType == t &&
    forall j :: 0 <= j < k ==> carDatas[j].carDataType != t
  }

  /** The list's Find: the first record with type `t`, or nothing (a null reference) when no record has it. */
  function Find(carDatas: seq<CarData>, t: CarDataType): (r: Option<CarData>)
    ensures r.None? <==> forall i :: 0 <= i < |carDatas| ==> carDatas[i].carDataType != t
    ensures r.Some? ==> exists k :: IsFirstOfType(carDatas, t, k) && carDatas[k] == r.value
  {
    FindFrom(carDatas, t, 0)
  }

  function FindFrom(carDatas: seq<CarData>, t: CarDataType, i: nat): (r: Option<CarData>)
    requires i <= |carDatas|
    requires forall j :: 0 <= j < i ==> carDatas[j].carDataType != t
    ensures r.None? <==> forall j :: 0 <= j < |carDatas| ==> carDatas[j].carDataType != t
    ensures r.Some? ==> exists k :: IsFirstOfType(carDatas, t, k) && carDatas[k] == r.value
    decreases |carDatas| - i
  {
    if i == |carDatas| then None
    else if carDatas[i].carDataType == t then
      assert IsFirstOfType(carDatas, t, i);
      Some(carDatas[i])
    else FindFrom(carDatas, t, i + 1)
  }

  /**
   * The cache update of the controller's SwitchCarData: nothing changes when the list
   * is empty or the cached record already has the selected type; otherwise the cache
   * becomes the list's first record of that type, or nothing if there is none.
   */
  function SwitchedCarData(carDatas: seq<CarData>, cached: Option<CarData>, selected: CarDataType): (r: Option<CarData>)
    ensures |carDatas| == 0 ==> r == cached
    ensures cached.Some? && cached.value.carDataType == selected ==> r == cached
    ensures |carDatas| > 0 && r.Some? ==> r.value.carDataType == selected
    ensures r.None? && |carDatas| > 0 ==> forall i :: 0 <= i < |carDatas| ==> carDatas[i].carDataType != selected
    ensures r != cached && r.Some? ==> exists k :: IsFirstOfType(carDatas, selected, k) && carDatas[k] == r.value
  {
    if |carDatas| == 0 || (cached.Some? && cached.value.carDataType == selected) then cached
    else Find(carDatas, selected)
  }

  /** Selecting the same archetype twice reloads nothing the second time: the update is idempotent. */
  lemma SwitchedCarDataIdempotent(carDatas: seq<CarData>, cached: Option<CarData>, selected: CarDataType)
    ensures SwitchedCarData(carDatas, SwitchedCarData(carDatas, cached, selected), selected)
            == SwitchedCarData(carDatas, cached, selected)
  {
  }
}
