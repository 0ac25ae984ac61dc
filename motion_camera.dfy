/**
 * The motion-camera card (motion-camera-card.js, class MotionCameraCard): the FIRST-listed
 * camera with a trigger reading "on" is shown, otherwise the first configured camera.
 * There is no hold time. Calls of `_render` are counted in `renders`; what they paint is
 * not modelled.
 */
module MotionCamera {
  import opened Wrappers
  import opened Hass

  /**
   * The errors setConfig throws. `NoDefaultCamera` stands for the TypeError that reading
   * `config.cameras[0].camera_entity` raises when the list is empty.
   */
  datatype ConfigError = NeedCameras | NeedCameraEntity | NeedMotionEntity | NoDefaultCamera

  /** The URL prefix of the host's camera proxy. */
  const ProxyPrefix: string := "/api/camera_proxy/"

  // ---------------------------------------------------------------------------
  // setConfig: validation
  // ---------------------------------------------------------------------------

  /** The verdict of setConfig's loop on one entry: `camera_entity` first, then `motion_entities`. */
  function CameraProblem(c: RawCamera): Option<ConfigError> {
    if !c.HasCameraEntity() then Some(NeedCameraEntity)
    else if c.motionEntities.None? || c.motionEntities.value == [] then Some(NeedMotionEntity)
    else None
  }

  /** The error of the first entry that fails the check, if any. */
  function FirstProblem(cams: seq<RawCamera>): (r: Option<ConfigError>)
    ensures r.None? <==> forall i | 0 <= i < |cams| :: CameraProblem(cams[i]).None?
  {
    if cams == [] then None
    else if CameraProblem(cams[0]).Some? then CameraProblem(cams[0])
    else
      assert forall i | 1 <= i < |cams| :: cams[i] == cams[1..][i - 1];
      FirstProblem(cams[1..])
  }

  /** The loop stops at the first failing entry, so that entry's error is thrown. */
  lemma {:induction false} FirstProblemAt(cams: seq<RawCamera>, i: nat)
    requires i < |cams| && CameraProblem(cams[i]).Some?
    requires forall j | 0 <= j < i :: CameraProblem(cams[j]).None?
    ensures FirstProblem(cams) == CameraProblem(cams[i])
  {
    if i > 0 {
      assert forall j | 0 <= j < i - 1 :: cams[1..][j] == cams[j + 1];
      FirstProblemAt(cams[1..], i - 1);
    }
  }

  /** The binding of an entry that passed the check. */
  function ToBinding(c: RawCamera): (b: Binding)
    requires CameraProblem(c).None?
    ensures b.cameraEntity != "" && |b.motionEntities| > 0
  {
    Binding(c.cameraEntity.value, c.motionEntities.value)
  }

  /** The bindings of a list that passed the check, in order. */
  function ToBindings(cams: seq<RawCamera>): (r: seq<Binding>)
    requires forall i | 0 <= i < |cams| :: CameraProblem(cams[i]).None?
    ensures |r| == |cams|
    ensures forall i | 0 <= i < |cams| :: r[i].cameraEntity != "" && |r[i].motionEntities| > 0
  {
    seq(|cams|, i requires 0 <= i < |cams| => ToBinding(cams[i]))
  }

  /** A list setConfig may install: non-empty, every entry with a camera and a trigger. */
  predicate Installable(cams: seq<Binding>) {
    && |cams| > 0
    && forall i | 0 <= i < |cams| :: cams[i].cameraEntity != "" && |cams[i].motionEntities| > 0
  }

  /** The checks of setConfig as written: an empty `cameras` array passes them. */
  function ValidateAsWritten(raw: RawConfig): (r: Result<seq<Binding>, ConfigError>)
    ensures r.Success? <==>
      raw.cameras.Some? && forall i | 0 <= i < |raw.cameras.value| :: CameraProblem(raw.cameras.value[i]).None?
    ensures r.Failure? ==>
      if raw.cameras.None? then r.error == NeedCameras else Some(r.error) == FirstProblem(raw.cameras.value)
    ensures r.Success? ==> |r.value| == |raw.cameras.value| && forall i | 0 <= i < |r.value| ::
      Some(r.value[i].cameraEntity) == raw.cameras.value[i].cameraEntity
      && Some(r.value[i].motionEntities) == raw.cameras.value[i].motionEntities
  {
    if raw.cameras.None? then Failure(NeedCameras)
    else
      match FirstProblem(raw.cameras.value)
      case Some(e) => Failure(e)
      case None => Success(ToBindings(raw.cameras.value))
  }

  /** The checks of setConfig with the empty list rejected as a missing one. */
  function Validate(raw: RawConfig): (r: Result<seq<Binding>, ConfigError>)
    ensures r.Success? <==>
      && raw.cameras.Some? && |raw.cameras.value| > 0
      && forall i | 0 <= i < |raw.cameras.value| :: CameraProblem(raw.cameras.value[i]).None?
    ensures r.Success? ==> Installable(r.value) && |r.value| == |raw.cameras.value|
    ensures r.Success? ==> forall i | 0 <= i < |r.value| ::
      Some(r.value[i].cameraEntity) == raw.cameras.value[i].cameraEntity
      && Some(r.value[i].motionEntities) == raw.cameras.value[i].motionEntities
    ensures raw.cameras.None? || raw.cameras == Some([]) ==> r == Failure(NeedCameras)
    ensures r.Failure? && raw.cameras.Some? && raw.cameras.value != [] ==>
      Some(r.error) == FirstProblem(raw.cameras.value)
  {
    if raw.cameras == Some([]) then Failure(NeedCameras) else ValidateAsWritten(raw)
  }

  /** As written, `cameras: []` is accepted: there is no first camera to show. */
  lemma EmptyCameraListAcceptedAsWritten(timeout: TimeoutField)
    ensures ValidateAsWritten(RawConfig(Some([]), timeout)) == Success([])
    ensures Validate(RawConfig(Some([]), timeout)) == Failure(NeedCameras)
  {
  }

  /** The correction changes the verdict on the empty list and on nothing else. */
  lemma CorrectionOnlyRejectsEmptyList(raw: RawConfig)
    ensures raw.cameras != Some([]) ==> Validate(raw) == ValidateAsWritten(raw)
    ensures raw.cameras == Some([]) ==>
      ValidateAsWritten(raw) == Success([]) && Validate(raw) == Failure(NeedCameras)
  {
  }

  /** The `for` loop of setConfig: the error of the first failing entry. */
  method CheckCameras(cams: seq<RawCamera>) returns (problem: Option<ConfigError>)
    ensures problem == FirstProblem(cams)
  {
    for i := 0 to |cams|
      invariant forall j | 0 <= j < i :: CameraProblem(cams[j]).None?
    {
      var camera := cams[i];
      if !camera.HasCameraEntity() {
        FirstProblemAt(cams, i);
        return Some(NeedCameraEntity);
      }
      if camera.motionEntities.None? || |camera.motionEntities.value| == 0 {
        FirstProblemAt(cams, i);
        return Some(NeedMotionEntity);
      }
    }
    return None;
  }

  // ---------------------------------------------------------------------------
  // Which camera is shown
  // ---------------------------------------------------------------------------

  /** Binding `i` has motion and no earlier binding has. */
  predicate FirstWithMotion(s: Snapshot, cams: seq<Binding>, i: int)
    requires 0 <= i < |cams|
  {
    HasMotion(s, cams[i]) && forall j | 0 <= j < i :: !HasMotion(s, cams[j])
  }

  /** The camera of the first binding with motion, if any. */
  function FirstTriggered(s: Snapshot, cams: seq<Binding>): (r: Option<EntityId>)
    ensures r.None? <==> forall i | 0 <= i < |cams| :: !HasMotion(s, cams[i])
    ensures r.Some? ==> exists i | 0 <= i < |cams| :: HasMotion(s, cams[i]) && cams[i].cameraEntity == r.value
  {
    if cams == [] then None
    else if HasMotion(s, cams[0]) then Some(cams[0].cameraEntity)
    else
      assert forall i | 1 <= i < |cams| :: cams[i] == cams[1..][i - 1];
      FirstTriggered(s, cams[1..])
  }

  /** The first binding with motion wins, whatever comes after it. */
  lemma {:induction false} FirstTriggeredIsFirstWithMotion(s: Snapshot, cams: seq<Binding>, i: int)
    requires 0 <= i < |cams| && FirstWithMotion(s, cams, i)
    ensures FirstTriggered(s, cams) == Some(cams[i].cameraEntity)
  {
    if i > 0 {
      assert !HasMotion(s, cams[0]);
      assert forall j | 0 <= j < i - 1 :: cams[1..][j] == cams[j + 1];
      FirstTriggeredIsFirstWithMotion(s, cams[1..], i - 1);
    }
  }

  /** The camera `_updateActiveCamera` shows: the first with motion, else the first configured. */
  function Selected(s: Snapshot, cams: seq<Binding>): EntityId
    requires |cams| > 0
  {
    FirstTriggered(s, cams).GetOr(cams[0].cameraEntity)
  }

  /** The shown camera is always a configured camera. */
  lemma SelectedIsConfigured(s: Snapshot, cams: seq<Binding>)
    requires |cams| > 0
    ensures Selected(s, cams) in CameraEntities(cams)
  {
    assert cams[0] in cams;
    var r := FirstTriggered(s, cams);
    if r.Some? {
      var i :| 0 <= i < |cams| && HasMotion(s, cams[i]) && cams[i].cameraEntity == r.value;
      assert cams[i] in cams;
    }
  }

  /** Some trigger's state string differs between the two snapshots (absent reads as undefined). */
  predicate MotionStatesDiffer(prev: Snapshot, next: Snapshot, cams: seq<Binding>) {
    exists i, m | 0 <= i < |cams| && m in cams[i].motionEntities :: StateOf(prev, m) != StateOf(next, m)
  }

  /** What `_shouldUpdate` looks for: a trigger's state or the shown camera's entry changed. */
  predicate RelevantChange(prev: Snapshot, next: Snapshot, cams: seq<Binding>, active: EntityId) {
    MotionStatesDiffer(prev, next, cams) || Lookup(prev, active) != Lookup(next, active)
  }

  /** A snapshot `_shouldUpdate` lets pass without update selects the same camera as before. */
  lemma {:induction false} UnchangedTriggersKeepSelection(prev: Snapshot, next: Snapshot, cams: seq<Binding>)
    requires !MotionStatesDiffer(prev, next, cams)
    ensures FirstTriggered(prev, cams) == FirstTriggered(next, cams)
  {
    if cams != [] {
      assert forall m | m in cams[0].motionEntities :: StateOf(prev, m) == StateOf(next, m);
      assert HasMotion(prev, cams[0]) == HasMotion(next, cams[0]);
      assert forall i | 0 <= i < |cams| - 1 :: cams[1..][i] == cams[i + 1];
      UnchangedTriggersKeepSelection(prev, next, cams[1..]);
    }
  }

  /** The first binding of `id`, as `cameras.find(c => c.camera_entity === id)` returns it. */
  function FindCamera(cams: seq<Binding>, id: EntityId): (r: Option<Binding>)
    ensures r.None? <==> forall i | 0 <= i < |cams| :: cams[i].cameraEntity != id
    ensures r.Some? ==> r.value.cameraEntity == id && r.value in cams
  {
    if cams == [] then None
    else if cams[0].cameraEntity == id then Some(cams[0])
    else
      assert forall i | 1 <= i < |cams| :: cams[i] == cams[1..][i - 1];
      FindCamera(cams[1..], id)
  }

  /** `find` returns the first binding of the camera. */
  lemma {:induction false} FindCameraIsFirst(cams: seq<Binding>, id: EntityId, i: nat)
    requires i < |cams| && cams[i].cameraEntity == id
    requires forall j | 0 <= j < i :: cams[j].cameraEntity != id
    ensures FindCamera(cams, id) == Some(cams[i])
  {
    if i > 0 {
      assert forall j | 0 <= j < i - 1 :: cams[1..][j] == cams[j + 1];
      FindCameraIsFirst(cams[1..], id, i - 1);
    }
  }

  /** No camera entity is listed twice. */
  predicate DistinctCameras(cams: seq<Binding>) {
    forall i, j | 0 <= i < j < |cams| :: cams[i].cameraEntity != cams[j].cameraEntity
  }

  // ---------------------------------------------------------------------------
  // The card
  // ---------------------------------------------------------------------------

  class MotionCameraCard {
    var hass: Option<Snapshot>
    var config: Option<seq<Binding>>
    var activeCamera: Option<EntityId>
    /** How many times `_render` has been called. */
    var renders: nat

    /** Once configured: an installable list and one of its cameras shown. */
    ghost predicate Valid()
      reads this
    {
      config.Some? ==>
        && Installable(config.value)
        && activeCamera.Some? && activeCamera.value in CameraEntities(config.value)
    }

    /** The constructor: nothing set yet. */
    constructor ()
      ensures Valid() && hass.None? && config.None? && activeCamera.None? && renders == 0
    {
      hass := None;
      config := None;
      activeCamera := None;
      renders := 0;
    }

    /**
     * `setConfig` with the empty list rejected: a rejected configuration changes nothing;
     * an accepted one is installed, its first camera shown, and `_render` called.
     */
    method SetConfig(raw: RawConfig) returns (err: Option<ConfigError>)
      requires Valid()
      modifies this
      ensures Valid() && hass == old(hass)
      ensures Validate(raw).Failure? ==> err == Some(Validate(raw).error) && unchanged(this)
      ensures Validate(raw).Success? ==>
        && err.None?
        && config == Some(Validate(raw).value)
        && activeCamera == Some(config.value[0].cameraEntity)
        && renders == old(renders) + 1
    {
      if raw.cameras.None? || |raw.cameras.value| == 0 {
        return Some(NeedCameras);
      }
      var cams := raw.cameras.value;
      var problem := CheckCameras(cams);
      if problem.Some? {
        return problem;
      }
      var bindings := ToBindings(cams);
      config := Some(bindings);
      activeCamera := Some(bindings[0].cameraEntity);
      assert bindings[0] in bindings;
      renders := renders + 1;
      return None;
    }

    /**
     * `setConfig` as written: an empty list passes the checks, is installed, and then reading
     * its first camera throws, leaving a card whose camera list is empty.
     */
    method SetConfigAsWritten(raw: RawConfig) returns (err: Option<ConfigError>)
      modifies this
      ensures hass == old(hass)
      ensures ValidateAsWritten(raw).Failure? ==> err == Some(ValidateAsWritten(raw).error) && unchanged(this)
      ensures ValidateAsWritten(raw) == Success([]) ==>
        && err == Some(NoDefaultCamera)
        && config == Some([])
        && activeCamera == old(activeCamera) && renders == old(renders)
      ensures ValidateAsWritten(raw).Success? && ValidateAsWritten(raw).value != [] ==>
        && err.None?
        && config == Some(ValidateAsWritten(raw).value)
        && activeCamera == Some(config.value[0].cameraEntity)
        && renders == old(renders) + 1
    {
      if raw.cameras.None? {
        return Some(NeedCameras);
      }
      var cams := raw.cameras.value;
      var problem := CheckCameras(cams);
      if problem.Some? {
        return problem;
      }
      var bindings := ToBindings(cams);
      config := Some(bindings);
      if |bindings| == 0 {
        return Some(NoDefaultCamera);
      }
      activeCamera := Some(bindings[0].cameraEntity);
      renders := renders + 1;
      return None;
    }

    /** `_shouldUpdate`: no configuration, no update; else a trigger state or the shown camera's entry changed. */
    method ShouldUpdate(prev: Snapshot, next: Snapshot) returns (b: bool)
      requires Valid()
      ensures b <==> config.Some? && RelevantChange(prev, next, config.value, activeCamera.value)
    {
      if config.None? {
        return false;
      }
      var cams := config.value;
      for i := 0 to |cams|
        invariant forall k, m | 0 <= k < i && m in cams[k].motionEntities :: StateOf(prev, m) == StateOf(next, m)
      {
        var entities := cams[i].motionEntities;
        for j := 0 to |entities|
          invariant forall l | 0 <= l < j :: StateOf(prev, entities[l]) == StateOf(next, entities[l])
        {
          if StateOf(prev, entities[j]) != StateOf(next, entities[j]) {
            return true;
          }
        }
      }
      var active := activeCamera.value;
      if Lookup(prev, active) != Lookup(next, active) {
        return true;
      }
      return false;
    }

    /**
     * `_updateActiveCamera`: without a snapshot or a configuration nothing happens; otherwise
     * the selected camera is shown, and `_render` is called only when that changes the camera.
     */
    method UpdateActiveCamera()
      requires Valid()
      modifies this
      ensures Valid() && hass == old(hass) && config == old(config)
      ensures hass.None? || config.None? ==> unchanged(this)
      ensures hass.Some? && config.Some? ==>
        && activeCamera == Some(Selected(hass.value, config.value))
        && renders == old(renders) + (if old(activeCamera) == activeCamera then 0 else 1)
    {
      if hass.None? || config.None? {
        return;
      }
      var cams := config.value;
      var states := hass.value;
      SelectedIsConfigured(states, cams);
      for i := 0 to |cams|
        invariant unchanged(this)
        invariant forall k | 0 <= k < i :: !HasMotion(states, cams[k])
      {
        var camera := cams[i];
        if HasMotion(states, camera) {
          FirstTriggeredIsFirstWithMotion(states, cams, i);
          if activeCamera != Some(camera.cameraEntity) {
            activeCamera := Some(camera.cameraEntity);
            renders := renders + 1;
          }
          return;
        }
      }
      if activeCamera != Some(cams[0].cameraEntity) {
        activeCamera := Some(cams[0].cameraEntity);
        renders := renders + 1;
      }
    }

    /**
     * The hass setter: store the snapshot; on the first one, or when `_shouldUpdate` says so,
     * update the shown camera, otherwise just call `_render`.
     */
    method SetHass(snapshot: Snapshot)
      requires Valid()
      modifies this
      ensures Valid() && hass == Some(snapshot) && config == old(config)
      ensures
        var update := old(hass).None? ||
          (config.Some? && RelevantChange(old(hass).value, snapshot, config.value, old(activeCamera).value));
        && (update && config.Some? ==>
              && activeCamera == Some(Selected(snapshot, config.value))
              && renders == old(renders) + (if old(activeCamera) == activeCamera then 0 else 1))
        && (update && config.None? ==> activeCamera == old(activeCamera) && renders == old(renders))
        && (!update ==> activeCamera == old(activeCamera) && renders == old(renders) + 1)
    {
      var oldHass := hass;
      hass := Some(snapshot);
      var update := oldHass.None?;
      if !update {
        update := ShouldUpdate(oldHass.value, snapshot);
      }
      if update {
        UpdateActiveCamera();
      } else {
        renders := renders + 1;
      }
    }

    /** `_isActiveMotionForCamera`: whether the first binding of the camera has motion; false for an unknown camera. */
    function IsActiveMotionForCamera(cameraEntity: EntityId): (r: bool)
      reads this
      requires config.Some? && hass.Some?
      ensures (forall i | 0 <= i < |config.value| :: config.value[i].cameraEntity != cameraEntity) ==> !r
      ensures forall i | 0 <= i < |config.value| && config.value[i].cameraEntity == cameraEntity
                && (forall j | 0 <= j < i :: config.value[j].cameraEntity != cameraEntity) ::
                r == HasMotion(hass.value, config.value[i])
    {
      var cams := config.value;
      assert forall i | 0 <= i < |cams| && cams[i].cameraEntity == cameraEntity
               && (forall j | 0 <= j < i :: cams[j].cameraEntity != cameraEntity) ::
               FindCamera(cams, cameraEntity) == Some(cams[i]) by {
        forall i | 0 <= i < |cams| && cams[i].cameraEntity == cameraEntity
                   && (forall j | 0 <= j < i :: cams[j].cameraEntity != cameraEntity)
          ensures FindCamera(cams, cameraEntity) == Some(cams[i])
        {
          FindCameraIsFirst(cams, cameraEntity, i);
        }
      }
      match FindCamera(cams, cameraEntity)
      case None => false
      case Some(camera) => HasMotion(hass.value, camera)
    }

    /** `_getCameraImageUrl`: the proxy URL of the entity, or "" without a snapshot. */
    function CameraImageUrl(entityId: EntityId): (url: string)
      reads this
      ensures hass.None? ==> url == ""
      ensures hass.Some? ==>
        && |url| == |ProxyPrefix| + |entityId|
        && url[..|ProxyPrefix|] == ProxyPrefix
        && url[|ProxyPrefix|..] == entityId
    {
      if hass.None? then "" else ProxyPrefix + entityId
    }
  }

  /** With a snapshot, distinct entities get distinct image URLs. */
  lemma ImageUrlDeterminesEntity(card: MotionCameraCard, a: EntityId, b: EntityId)
    requires card.hass.Some? && card.CameraImageUrl(a) == card.CameraImageUrl(b)
    ensures a == b
  {
    assert a == card.CameraImageUrl(a)[|ProxyPrefix|..];
  }

  /**
   * With distinct camera entities, the camera selected for motion shows the motion
   * indicator, and without motion no camera does.
   */
  lemma MotionIndicatorAgreesWithSelection(card: MotionCameraCard, id: EntityId)
    requires card.config.Some? && card.hass.Some? && DistinctCameras(card.config.value)
    ensures FirstTriggered(card.hass.value, card.config.value) == Some(id) ==>
      card.IsActiveMotionForCamera(id)
    ensures FirstTriggered(card.hass.value, card.config.value).None? ==>
      !card.IsActiveMotionForCamera(id)
  {
    var cams, s := card.config.value, card.hass.value;
    if FirstTriggered(s, cams) == Some(id) {
      var i :| 0 <= i < |cams| && HasMotion(s, cams[i]) && cams[i].cameraEntity == id;
      assert forall j | 0 <= j < i :: cams[j].cameraEntity != id;
      FindCameraIsFirst(cams, id, i);
    }
  }
}
