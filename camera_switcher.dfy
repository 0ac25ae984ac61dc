/**
 * The camera-switcher card (camera-switcher-card.js, class CameraSwitcherCard).
 *
 * Of the configured cameras, the LAST-listed one with a trigger reading "on" is shown.
 * When no trigger is on, the camera that last had motion is held until `timeout` seconds
 * have passed since the last run of `_updateLogic` that saw that motion (one re-check timer
 * handle is kept for the end of the hold); after that, and when nothing ever triggered, the
 * first configured camera is shown.
 *
 * Time is the parameter `now` (milliseconds); the re-check timer is the field
 * `timeoutTimer` and its callback is the method `TimerFired`.
 */
module CameraSwitcher {
  import opened Wrappers
  import opened Hass

  /** `timeout` in seconds when the configuration leaves the key out. */
  const DefaultTimeout: int := 10

  /** Milliseconds added to the remaining hold time when the re-check timer is scheduled. */
  const TimerMargin: int := 100

  /** The installed configuration; `timeout` is None when the key was present but null. */
  datatype Config = Config(cameras: seq<Binding>, timeout: Option<int>)

  /** What a successful setConfig guarantees of the configuration it installs. */
  predicate WellFormed(cfg: Config) {
    && |cfg.cameras| > 0
    && forall i | 0 <= i < |cfg.cameras| :: cfg.cameras[i].cameraEntity != ""
  }

  /** The errors setConfig throws; `number` is the 1-based position of the offending entry. */
  datatype ConfigError = NoCameras | MissingCameraEntity(number: nat)

  // ---------------------------------------------------------------------------
  // setConfig: validation and normalisation
  // ---------------------------------------------------------------------------

  /** The 0-based index of the first entry whose `camera_entity` is missing, if any. */
  function FirstMissingEntity(raw: seq<RawCamera>): (r: Option<nat>)
    ensures r.None? <==> forall i | 0 <= i < |raw| :: raw[i].HasCameraEntity()
    ensures r.Some? ==> r.value < |raw| && !raw[r.value].HasCameraEntity()
    ensures r.Some? ==> forall j | 0 <= j < r.value :: raw[j].HasCameraEntity()
  {
    if raw == [] then None
    else if !raw[0].HasCameraEntity() then Some(0)
    else
      match FirstMissingEntity(raw[1..])
      case None =>
        assert forall i | 1 <= i < |raw| :: raw[i] == raw[1..][i - 1];
        None
      case Some(k) =>
        assert forall i | 1 <= i < |raw| :: raw[i] == raw[1..][i - 1];
        Some(k + 1)
  }

  /** `{camera_entity, motion_entities: Array.isArray(m) ? m : []}`. */
  function Normalised(c: RawCamera): Binding
    requires c.HasCameraEntity()
  {
    Binding(c.cameraEntity.value, c.motionEntities.GetOr([]))
  }

  /** The timeout after `{timeout: 10, ...config}`: an explicit null overrides the default. */
  function InstalledTimeout(t: TimeoutField): Option<int> {
    match t
    case Absent => Some(DefaultTimeout)
    case Null => None
    case Seconds(n) => Some(n)
  }

  /** The configuration setConfig installs, or the error it throws. */
  function Validate(raw: RawConfig): (r: Result<Config, ConfigError>)
    ensures raw.cameras.None? || raw.cameras == Some([]) ==> r == Failure(NoCameras)
    ensures r.Success? <==>
      && raw.cameras.Some? && |raw.cameras.value| > 0
      && forall i | 0 <= i < |raw.cameras.value| :: raw.cameras.value[i].HasCameraEntity()
    ensures r.Success? ==> WellFormed(r.value) && r.value.timeout == InstalledTimeout(raw.timeout)
    ensures r.Success? ==>
      && |r.value.cameras| == |raw.cameras.value|
      && forall i | 0 <= i < |raw.cameras.value| ::
           r.value.cameras[i].cameraEntity == raw.cameras.value[i].cameraEntity.value
           && r.value.cameras[i].motionEntities == raw.cameras.value[i].motionEntities.GetOr([])
    ensures r.Failure? && raw.cameras.Some? && |raw.cameras.value| > 0 ==> r.error.MissingCameraEntity?
    ensures r.Failure? && r.error.MissingCameraEntity? ==>
      && raw.cameras.Some?
      && 1 <= r.error.number <= |raw.cameras.value|
      && !raw.cameras.value[r.error.number - 1].HasCameraEntity()
      && forall j | 0 <= j < r.error.number - 1 :: raw.cameras.value[j].HasCameraEntity()
  {
    if raw.cameras.None? || raw.cameras.value == [] then Failure(NoCameras)
    else
      var cams := raw.cameras.value;
      match FirstMissingEntity(cams)
      case Some(k) => Failure(MissingCameraEntity(k + 1))
      case None =>
        Success(Config(seq(|cams|, i requires 0 <= i < |cams| => Normalised(cams[i])),
                       InstalledTimeout(raw.timeout)))
  }

  /** The checks and the `map` at the head of setConfig, entry by entry. */
  method ValidateConfig(raw: RawConfig) returns (r: Result<Config, ConfigError>)
    ensures r == Validate(raw)
  {
    if raw.cameras.None? || |raw.cameras.value| == 0 {
      return Failure(NoCameras);
    }
    var cams := raw.cameras.value;
    var normCams: seq<Binding> := [];
    for idx := 0 to |cams|
      invariant forall j | 0 <= j < idx :: cams[j].HasCameraEntity()
      invariant |normCams| == idx
      invariant forall j | 0 <= j < idx :: normCams[j] == Normalised(cams[j])
    {
      if !cams[idx].HasCameraEntity() {
        return Failure(MissingCameraEntity(idx + 1));
      }
      normCams := normCams + [Normalised(cams[idx])];
    }
    assert normCams == seq(|cams|, i requires 0 <= i < |cams| => Normalised(cams[i]));
    return Success(Config(normCams, InstalledTimeout(raw.timeout)));
  }

  // ---------------------------------------------------------------------------
  // The watch list
  // ---------------------------------------------------------------------------

  /** The ids one binding adds to the watch list: its camera and its triggers. */
  function Watched(b: Binding): set<EntityId> {
    {b.cameraEntity} + set m | m in b.motionEntities
  }

  /** The watch list setConfig builds, binding after binding. */
  function WatchList(cams: seq<Binding>): (r: set<EntityId>)
    ensures forall i | 0 <= i < |cams| :: Watched(cams[i]) <= r
  {
    if cams == [] then {}
    else
      var n := |cams| - 1;
      assert forall i | 0 <= i < n :: cams[..n][i] == cams[i];
      WatchList(cams[..n]) + Watched(cams[n])
  }

  /** The watch list is exactly the camera entities together with all trigger entities. */
  lemma {:induction false} WatchListIsUnion(cams: seq<Binding>, e: EntityId)
    ensures e in WatchList(cams) <==>
      exists i | 0 <= i < |cams| :: e == cams[i].cameraEntity || e in cams[i].motionEntities
  {
    if cams != [] {
      var n := |cams| - 1;
      var init := cams[..n];
      WatchListIsUnion(init, e);
      assert forall i | 0 <= i < n :: init[i] == cams[i];
      if e in WatchList(cams) && e !in WatchList(init) {
        assert e == cams[n].cameraEntity || e in cams[n].motionEntities;
      }
    }
  }

  /** Whether some entity of `ids` has a different state entry in `next` than in `prev`. */
  predicate WatchedChanged(prev: Snapshot, next: Snapshot, ids: set<EntityId>) {
    exists e :: e in ids && Lookup(prev, e) != Lookup(next, e)
  }

  // ---------------------------------------------------------------------------
  // Which camera has motion
  // ---------------------------------------------------------------------------

  /** Binding `i` has motion and no later binding has. */
  predicate LastWithMotion(s: Snapshot, cams: seq<Binding>, i: int)
    requires 0 <= i < |cams|
  {
    HasMotion(s, cams[i]) && forall j | i < j < |cams| :: !HasMotion(s, cams[j])
  }

  /**
   * `foundMotionCamera` after the scan of `_updateLogic`: every "on" trigger overwrites it,
   * so the camera of the last binding with motion remains.
   */
  function LastTriggered(s: Snapshot, cams: seq<Binding>): (r: Option<EntityId>)
    ensures r.None? <==> forall i | 0 <= i < |cams| :: !HasMotion(s, cams[i])
    ensures r.Some? ==> exists i | 0 <= i < |cams| :: HasMotion(s, cams[i]) && cams[i].cameraEntity == r.value
  {
    if cams == [] then None
    else
      var n := |cams| - 1;
      if HasMotion(s, cams[n]) then Some(cams[n].cameraEntity)
      else
        var init := cams[..n];
        var r := LastTriggered(s, init);
        assert forall i | 0 <= i < n :: init[i] == cams[i];
        r
  }

  /** The scan picks the last binding with motion, whatever comes before it. */
  lemma {:induction false} LastTriggeredIsLastWithMotion(s: Snapshot, cams: seq<Binding>, i: int)
    requires 0 <= i < |cams| && LastWithMotion(s, cams, i)
    ensures LastTriggered(s, cams) == Some(cams[i].cameraEntity)
  {
    var n := |cams| - 1;
    if i < n {
      assert !HasMotion(s, cams[n]);
      assert forall j | 0 <= j < n :: cams[..n][j] == cams[j];
      LastTriggeredIsLastWithMotion(s, cams[..n], i);
    }
  }

  /** The scan reads nothing but the states of the bindings' triggers. */
  lemma {:induction false} LastTriggeredReadsOnlyTriggers(s1: Snapshot, s2: Snapshot, cams: seq<Binding>)
    requires forall i, m | 0 <= i < |cams| && m in cams[i].motionEntities :: IsOn(s1, m) == IsOn(s2, m)
    ensures LastTriggered(s1, cams) == LastTriggered(s2, cams)
  {
    if cams != [] {
      var n := |cams| - 1;
      assert forall i | 0 <= i < n :: cams[..n][i] == cams[i];
      LastTriggeredReadsOnlyTriggers(s1, s2, cams[..n]);
      assert HasMotion(s1, cams[n]) == HasMotion(s2, cams[n]);
    }
  }

  // ---------------------------------------------------------------------------
  // _updateLogic as a function of the engine state
  // ---------------------------------------------------------------------------

  /** A pending `setTimeout`: when it was scheduled and the delay it was given, in ms. */
  datatype Timer = Timer(scheduledAt: int, delay: int) {
    function Due(): int { scheduledAt + delay }
  }

  /**
   * The fields `_updateLogic` reads and writes: `_activeCamera`, `_lastTriggeredCamera`,
   * `_lastMotionTime`, `_timeoutTimer` and `_isMotionActive`.
   */
  datatype Engine = Engine(
    active: Option<EntityId>,
    lastTriggered: Option<EntityId>,
    lastMotionTime: int,
    timer: Option<Timer>,
    motionActive: bool)

  /** The state setConfig leaves behind. */
  function Reset(cfg: Config): (e: Engine)
    requires WellFormed(cfg)
  {
    Engine(Some(cfg.cameras[0].cameraEntity), None, 0, None, false)
  }

  /** `(cfg.timeout || 0)` seconds, in milliseconds. */
  function TimeoutMs(cfg: Config): int {
    cfg.timeout.GetOr(0) * 1000
  }

  /** The first configured camera, shown when nothing holds another one. */
  function DefaultCamera(cfg: Config): EntityId
    requires WellFormed(cfg)
  {
    cfg.cameras[0].cameraEntity
  }

  /** One run of `_updateLogic` at time `now` against the snapshot `s`. */
  function Step(cfg: Config, s: Snapshot, now: int, e: Engine): Engine
    requires WellFormed(cfg)
  {
    match LastTriggered(s, cfg.cameras)
    case Some(c) =>
      Engine(Some(c), Some(c), now, if e.active != Some(c) then None else e.timer, true)
    case None =>
      if e.lastTriggered.Some? then
        var elapsed := now - e.lastMotionTime;
        if elapsed < TimeoutMs(cfg) then
          e.(active := e.lastTriggered,
             timer := if e.timer.None? then Some(Timer(now, TimeoutMs(cfg) - elapsed + TimerMargin)) else e.timer,
             motionActive := false)
        else
          e.(active := Some(DefaultCamera(cfg)), lastTriggered := None, motionActive := false)
      else
        e.(active := Some(DefaultCamera(cfg)), motionActive := false)
  }

  /** The re-check timer's callback: it forgets its handle, then runs `_updateLogic`. */
  function Fire(cfg: Config, s: Snapshot, now: int, e: Engine): (r: Engine)
    requires WellFormed(cfg)
    ensures r.timer.Some? ==> r.timer.value.scheduledAt == now
  {
    Step(cfg, s, now, e.(timer := None))
  }

  /** No binding has motion in `s`. */
  predicate NoMotion(s: Snapshot, cams: seq<Binding>) {
    forall i | 0 <= i < |cams| :: !HasMotion(s, cams[i])
  }

  /** The shown and the held camera are configured cameras. */
  predicate Selectable(cams: seq<Binding>, e: Engine) {
    && e.active.Some? && e.active.value in CameraEntities(cams)
    && (e.lastTriggered.Some? ==> e.lastTriggered.value in CameraEntities(cams))
  }

  // ---------------------------------------------------------------------------
  // What _updateLogic promises
  // ---------------------------------------------------------------------------

  /**
   * With motion, the last-listed camera with motion is shown and remembered with the time;
   * a pending timer survives only if that camera was already shown.
   */
  lemma MotionSelectsLastListedCamera(cfg: Config, s: Snapshot, now: int, e: Engine, i: int)
    requires WellFormed(cfg) && 0 <= i < |cfg.cameras| && LastWithMotion(s, cfg.cameras, i)
    ensures Step(cfg, s, now, e).active == Some(cfg.cameras[i].cameraEntity)
    ensures Step(cfg, s, now, e).lastTriggered == Some(cfg.cameras[i].cameraEntity)
    ensures Step(cfg, s, now, e).lastMotionTime == now
    ensures Step(cfg, s, now, e).motionActive
    ensures Step(cfg, s, now, e).timer ==
      if e.active == Some(cfg.cameras[i].cameraEntity) then e.timer else None
  {
    LastTriggeredIsLastWithMotion(s, cfg.cameras, i);
  }

  /** Without motion and with nothing held, the first camera is shown. */
  lemma NoMotionShowsDefault(cfg: Config, s: Snapshot, now: int, e: Engine)
    requires WellFormed(cfg) && NoMotion(s, cfg.cameras) && e.lastTriggered.None?
    ensures Step(cfg, s, now, e) == e.(active := Some(DefaultCamera(cfg)), motionActive := false)
  {
  }

  /**
   * Without motion, a held camera stays shown while less than `timeout` has passed since the
   * last motion; a timer is scheduled only if none is pending, due `TimerMargin` ms after
   * the hold ends.
   */
  lemma HoldWithinTimeout(cfg: Config, s: Snapshot, now: int, e: Engine)
    requires WellFormed(cfg) && NoMotion(s, cfg.cameras)
    requires e.lastTriggered.Some? && now - e.lastMotionTime < TimeoutMs(cfg)
    ensures Step(cfg, s, now, e).active == e.lastTriggered
    ensures Step(cfg, s, now, e).lastTriggered == e.lastTriggered
    ensures Step(cfg, s, now, e).lastMotionTime == e.lastMotionTime
    ensures Step(cfg, s, now, e).timer.Some?
    ensures e.timer.Some? ==> Step(cfg, s, now, e).timer == e.timer
    ensures e.timer.None? ==>
      && Step(cfg, s, now, e).timer.value.scheduledAt == now
      && Step(cfg, s, now, e).timer.value.delay > TimerMargin
      && Step(cfg, s, now, e).timer.value.Due() == e.lastMotionTime + TimeoutMs(cfg) + TimerMargin
  {
  }

  /** Without motion, once `timeout` has passed since the last motion, the first camera is shown. */
  lemma RevertAfterTimeout(cfg: Config, s: Snapshot, now: int, e: Engine)
    requires WellFormed(cfg) && NoMotion(s, cfg.cameras)
    requires e.lastTriggered.Some? && now - e.lastMotionTime >= TimeoutMs(cfg)
    ensures Step(cfg, s, now, e).active == Some(DefaultCamera(cfg))
    ensures Step(cfg, s, now, e).lastTriggered.None?
    ensures Step(cfg, s, now, e).timer == e.timer
  {
  }

  /**
   * A null, zero or negative timeout (`cfg.timeout || 0` keeps a negative number) reverts as
   * soon as no trigger is on, provided the clock does not run backwards.
   */
  lemma NonPositiveTimeoutRevertsAtOnce(cfg: Config, s: Snapshot, now: int, e: Engine)
    requires WellFormed(cfg) && NoMotion(s, cfg.cameras)
    requires cfg.timeout.GetOr(0) <= 0
    requires e.lastMotionTime <= now
    ensures Step(cfg, s, now, e).active == Some(DefaultCamera(cfg))
    ensures Step(cfg, s, now, e).lastTriggered.None?
  {
  }

  /**
   * At most one timer handle is kept: a pending timer is never replaced, and it is dropped only
   * when motion switches the shown camera to another one.
   */
  lemma PendingTimerKeptUnlessSwitched(cfg: Config, s: Snapshot, now: int, e: Engine)
    requires WellFormed(cfg) && e.timer.Some?
    ensures Step(cfg, s, now, e).timer == e.timer || Step(cfg, s, now, e).timer.None?
    ensures Step(cfg, s, now, e).timer.None? ==>
      !NoMotion(s, cfg.cameras) && Step(cfg, s, now, e).active != e.active
  {
  }

  /** `_isMotionActive` after a run says whether some trigger of some camera reads "on". */
  lemma MotionFlagTracksTriggers(cfg: Config, s: Snapshot, now: int, e: Engine)
    requires WellFormed(cfg)
    ensures Step(cfg, s, now, e).motionActive <==> !NoMotion(s, cfg.cameras)
  {
  }

  /** A run either keeps the timer it had or, having none, schedules one at `now`. */
  lemma TimerKeptOrScheduledNow(cfg: Config, s: Snapshot, now: int, e: Engine)
    requires WellFormed(cfg)
    ensures var r := Step(cfg, s, now, e);
      r.timer.Some? ==> r.timer == e.timer || (e.timer.None? && r.timer.value.scheduledAt == now)
  {
  }

  /**
   * The hold is measured from the last run that saw motion, not from when motion stopped: if
   * that run lies `timeout` or more before the run that sees no motion, nothing is held.
   */
  lemma NoHoldAfterLongMotion(cfg: Config, s1: Snapshot, s2: Snapshot, t1: int, t2: int, e: Engine)
    requires WellFormed(cfg) && !NoMotion(s1, cfg.cameras) && NoMotion(s2, cfg.cameras)
    requires t2 - t1 >= TimeoutMs(cfg)
    ensures Step(cfg, s2, t2, Step(cfg, s1, t1, e)).active == Some(DefaultCamera(cfg))
    ensures Step(cfg, s2, t2, Step(cfg, s1, t1, e)).lastTriggered.None?
  {
  }

  /**
   * A trigger that stays "on" for 12 s under a 10 s timeout: the camera reverts the moment the
   * trigger turns off, unless some other run happened to see the motion later, at 8 s.
   */
  lemma ExtraRunWithMotionRestartsHold()
    ensures
      var cfg := Config([Binding("camera.a", []), Binding("camera.b", ["binary_sensor.m"])], Some(10));
      var on := map["binary_sensor.m" := StateObj(On, map[])];
      var off := map["binary_sensor.m" := StateObj("off", map[])];
      var e := Step(cfg, on, 0, Reset(cfg));
      && Step(cfg, off, 12000, e).active == Some("camera.a")
      && Step(cfg, off, 12000, e).timer.None?
      && Step(cfg, off, 12000, Step(cfg, on, 8000, e)).active == Some("camera.b")
  {
    var cfg := Config([Binding("camera.a", []), Binding("camera.b", ["binary_sensor.m"])], Some(10));
    var on := map["binary_sensor.m" := StateObj(On, map[])];
    var off := map["binary_sensor.m" := StateObj("off", map[])];
    assert IsOn(on, "binary_sensor.m") && !IsOn(off, "binary_sensor.m");
    assert HasMotion(on, cfg.cameras[1]) && !HasMotion(off, cfg.cameras[1]);
    assert !HasMotion(on, cfg.cameras[0]) && !HasMotion(off, cfg.cameras[0]);
  }

  /**
   * The hold ends without help from the host: after motion stops, the scheduled timer fires
   * no earlier than its due time and, with still no motion, shows the first camera again.
   */
  lemma {:induction false} TimerEndsHold(cfg: Config, s1: Snapshot, t1: int, e: Engine, s2: Snapshot, t2: int)
    requires WellFormed(cfg) && NoMotion(s1, cfg.cameras) && NoMotion(s2, cfg.cameras)
    requires e.lastTriggered.Some? && e.timer.None? && t1 - e.lastMotionTime < TimeoutMs(cfg)
    requires t2 >= e.lastMotionTime + TimeoutMs(cfg) + TimerMargin
    ensures Step(cfg, s1, t1, e).active == e.lastTriggered
    ensures Step(cfg, s1, t1, e).timer.Some? && Step(cfg, s1, t1, e).timer.value.Due() <= t2
    ensures Fire(cfg, s2, t2, Step(cfg, s1, t1, e)).active == Some(DefaultCamera(cfg))
    ensures Fire(cfg, s2, t2, Step(cfg, s1, t1, e)).lastTriggered.None?
    ensures Fire(cfg, s2, t2, Step(cfg, s1, t1, e)).timer.None?
  {
    var e1 := Step(cfg, s1, t1, e);
    HoldWithinTimeout(cfg, s1, t1, e);
    RevertAfterTimeout(cfg, s2, t2, e1.(timer := None));
  }

  /** Running `_updateLogic` again on the same snapshot at the same time changes nothing. */
  lemma StepIdempotent(cfg: Config, s: Snapshot, now: int, e: Engine)
    requires WellFormed(cfg)
    ensures Step(cfg, s, now, Step(cfg, s, now, e)) == Step(cfg, s, now, e)
  {
  }

  /**
   * Entities outside the watch list do not influence one run of `_updateLogic`: two runs at
   * the same time on snapshots that agree on every watched entry reach the same state. This
   * does not make a skipped run equivalent to a performed one, since a run that sees motion
   * restamps the motion time (`ExtraRunWithMotionRestartsHold`).
   */
  lemma UnwatchedChangesIrrelevant(cfg: Config, s1: Snapshot, s2: Snapshot, now: int, e: Engine)
    requires WellFormed(cfg)
    requires !WatchedChanged(s1, s2, WatchList(cfg.cameras))
    ensures Step(cfg, s1, now, e) == Step(cfg, s2, now, e)
  {
    forall i, m | 0 <= i < |cfg.cameras| && m in cfg.cameras[i].motionEntities
      ensures IsOn(s1, m) == IsOn(s2, m)
    {
      WatchListIsUnion(cfg.cameras, m);
      assert Lookup(s1, m) == Lookup(s2, m);
    }
    LastTriggeredReadsOnlyTriggers(s1, s2, cfg.cameras);
  }

  /** `_updateLogic` only ever shows and holds configured cameras. */
  lemma StepKeepsSelectable(cfg: Config, s: Snapshot, now: int, e: Engine)
    requires WellFormed(cfg) && Selectable(cfg.cameras, e)
    ensures Selectable(cfg.cameras, Step(cfg, s, now, e))
    ensures Selectable(cfg.cameras, Fire(cfg, s, now, e))
  {
    assert cfg.cameras[0] in cfg.cameras;
    var r := LastTriggered(s, cfg.cameras);
    if r.Some? {
      var i :| 0 <= i < |cfg.cameras| && HasMotion(s, cfg.cameras[i]) && cfg.cameras[i].cameraEntity == r.value;
      assert cfg.cameras[i] in cfg.cameras;
    }
  }

  // ---------------------------------------------------------------------------
  // The card
  // ---------------------------------------------------------------------------

  class CameraSwitcherCard {
    var config: Option<Config>
    var watchList: set<EntityId>
    var hass: Option<Snapshot>
    var activeCamera: Option<EntityId>
    var lastTriggeredCamera: Option<EntityId>
    var lastMotionTime: int
    var timeoutTimer: Option<Timer>
    var isMotionActive: bool

    /** The engine fields as one value. */
    function EngineState(): Engine
      reads this
    {
      Engine(activeCamera, lastTriggeredCamera, lastMotionTime, timeoutTimer, isMotionActive)
    }

    /** Once configured: the configuration is well formed, the watch list is up to date and a configured camera is shown. */
    ghost predicate Valid()
      reads this
    {
      config.Some? ==>
        && WellFormed(config.value)
        && watchList == WatchList(config.value.cameras)
        && Selectable(config.value.cameras, EngineState())
    }

    /** A card the host has created but not yet configured. */
    constructor ()
      ensures Valid() && config.None? && hass.None?
      ensures activeCamera.None? && lastTriggeredCamera.None? && timeoutTimer.None?
    {
      config := None;
      watchList := {};
      hass := None;
      activeCamera := None;
      lastTriggeredCamera := None;
      lastMotionTime := 0;
      timeoutTimer := None;
      isMotionActive := false;
    }

    /**
     * `setConfig`: validate, install, rebuild the watch list and reset the engine. A rejected
     * configuration changes nothing. The handle of a pending timer is dropped, not cancelled.
     */
    method SetConfig(raw: RawConfig) returns (err: Option<ConfigError>)
      requires Valid()
      modifies this
      ensures Valid() && hass == old(hass)
      ensures Validate(raw).Failure? ==> err == Some(Validate(raw).error) && unchanged(this)
      ensures Validate(raw).Success? ==>
        && err.None?
        && config == Some(Validate(raw).value)
        && watchList == WatchList(config.value.cameras)
        && EngineState() == Reset(config.value)
    {
      var r := ValidateConfig(raw);
      if r.Failure? {
        return Some(r.error);
      }
      var cfg := r.value;
      config := Some(cfg);
      RebuildWatchList(cfg.cameras);
      activeCamera := Some(cfg.cameras[0].cameraEntity);
      lastTriggeredCamera := None;
      lastMotionTime := 0;
      timeoutTimer := None;
      isMotionActive := false;
      assert cfg.cameras[0] in cfg.cameras;
      err := None;
    }

    /** The watch-list part of `setConfig`: every camera entity and every trigger, camera by camera. */
    method RebuildWatchList(cams: seq<Binding>)
      modifies this`watchList
      ensures watchList == WatchList(cams)
    {
      watchList := {};
      for i := 0 to |cams|
        modifies this`watchList
        invariant watchList == WatchList(cams[..i])
      {
        var c := cams[i];
        watchList := watchList + {c.cameraEntity};
        for j := 0 to |c.motionEntities|
          modifies this`watchList
          invariant watchList == WatchList(cams[..i]) + {c.cameraEntity} + set m | m in c.motionEntities[..j]
        {
          assert c.motionEntities[..j + 1] == c.motionEntities[..j] + [c.motionEntities[j]];
          watchList := watchList + {c.motionEntities[j]};
        }
        assert c.motionEntities[..|c.motionEntities|] == c.motionEntities;
        assert cams[..i + 1][..i] == cams[..i];
      }
      assert cams[..|cams|] == cams;
    }

    /** The loop of the hass setter: does some watched entity have a different state entry? */
    method WatchedEntityChanged(prev: Snapshot, next: Snapshot) returns (changed: bool)
      ensures changed <==> WatchedChanged(prev, next, watchList)
    {
      changed := false;
      var todo := watchList;
      while todo != {}
        invariant todo <= watchList
        invariant forall e | e in watchList - todo :: Lookup(prev, e) == Lookup(next, e)
        decreases |todo|
      {
        var e :| e in todo;
        if Lookup(prev, e) != Lookup(next, e) {
          changed := true;
          return;
        }
        todo := todo - {e};
      }
    }

    /**
     * The hass setter: store the snapshot; once configured, run `_updateLogic` on the first
     * snapshot or when a watched entity's state entry changed.
     */
    method SetHass(snapshot: Snapshot, now: int)
      requires Valid()
      modifies this
      ensures Valid()
      ensures hass == Some(snapshot) && config == old(config) && watchList == old(watchList)
      ensures old(config).None? ==> EngineState() == old(EngineState())
      ensures old(config).Some? ==>
        EngineState() ==
          if old(hass).None? || WatchedChanged(old(hass).value, snapshot, watchList)
          then Step(config.value, snapshot, now, old(EngineState()))
          else old(EngineState())
    {
      var oldHass := hass;
      hass := Some(snapshot);
      if config.None? {
        return;
      }
      var shouldUpdate := oldHass.None?;
      if oldHass.Some? {
        shouldUpdate := WatchedEntityChanged(oldHass.value, snapshot);
      }
      if shouldUpdate {
        UpdateLogic(now);
      }
    }

    /** `_updateLogic` at time `now`. */
    method UpdateLogic(now: int)
      requires Valid() && config.Some? && hass.Some?
      modifies this
      ensures Valid()
      ensures config == old(config) && hass == old(hass) && watchList == old(watchList)
      ensures EngineState() == Step(config.value, hass.value, now, old(EngineState()))
    {
      ghost var before := EngineState();
      RunEngine(config.value, hass.value, now);
      StepKeepsSelectable(config.value, hass.value, now, before);
    }

    /** The body of `_updateLogic` on the engine fields alone. */
    method RunEngine(cfg: Config, states: Snapshot, now: int)
      requires WellFormed(cfg)
      modifies this`activeCamera, this`lastTriggeredCamera, this`lastMotionTime, this`timeoutTimer, this`isMotionActive
      ensures EngineState() == Step(cfg, states, now, old(EngineState()))
    {
      // 1. Scan for motion: every "on" trigger overwrites the camera found so far.
      var foundMotionCamera := ScanForMotion(cfg.cameras, states);

      // 2. Decide.
      if foundMotionCamera.Some? {
        lastTriggeredCamera := foundMotionCamera;
        lastMotionTime := now;
        if activeCamera != foundMotionCamera {
          activeCamera := foundMotionCamera;
          if timeoutTimer.Some? {
            timeoutTimer := None;
          }
        }
      } else {
        isMotionActive := false;
        if lastTriggeredCamera.Some? {
          var elapsed := now - lastMotionTime;
          var timeoutMs := TimeoutMs(cfg);
          if elapsed < timeoutMs {
            activeCamera := lastTriggeredCamera;
            if timeoutTimer.None? {
              timeoutTimer := Some(Timer(now, timeoutMs - elapsed + TimerMargin));
            }
          } else {
            activeCamera := Some(cfg.cameras[0].cameraEntity);
            lastTriggeredCamera := None;
          }
        } else {
          activeCamera := Some(cfg.cameras[0].cameraEntity);
        }
      }
    }

    /**
     * Step 1 of `_updateLogic`: the nested loops over bindings and triggers; each "on"
     * trigger overwrites the camera found so far and raises `_isMotionActive`.
     */
    method ScanForMotion(cams: seq<Binding>, states: Snapshot) returns (foundMotionCamera: Option<EntityId>)
      modifies this`isMotionActive
      ensures foundMotionCamera == LastTriggered(states, cams)
      ensures isMotionActive == (old(isMotionActive) || foundMotionCamera.Some?)
    {
      foundMotionCamera := None;
      for i := 0 to |cams|
        invariant foundMotionCamera == LastTriggered(states, cams[..i])
        invariant isMotionActive == (old(isMotionActive) || foundMotionCamera.Some?)
      {
        var cam := cams[i];
        ghost var prefix := cams[..i];
        for j := 0 to |cam.motionEntities|
          invariant foundMotionCamera ==
            if exists k | 0 <= k < j :: IsOn(states, cam.motionEntities[k])
            then Some(cam.cameraEntity) else LastTriggered(states, prefix)
          invariant isMotionActive == (old(isMotionActive) || foundMotionCamera.Some?)
        {
          var ent := cam.motionEntities[j];
          if ent in states && states[ent].state == On {
            foundMotionCamera := Some(cam.cameraEntity);
            isMotionActive := true;
          }
        }
        assert HasMotion(states, cam) <==>
          exists k | 0 <= k < |cam.motionEntities| :: IsOn(states, cam.motionEntities[k]);
        assert cams[..i + 1][..i] == prefix;
        assert cams[..i + 1][i] == cam;
      }
      assert cams[..|cams|] == cams;
    }

    /** The re-check timer fires at `now`: it forgets its handle and runs `_updateLogic`. */
    method TimerFired(now: int)
      requires Valid() && config.Some? && hass.Some?
      modifies this
      ensures Valid()
      ensures config == old(config) && hass == old(hass) && watchList == old(watchList)
      ensures EngineState() == Fire(config.value, hass.value, now, old(EngineState()))
    {
      timeoutTimer := None;
      UpdateLogic(now);
    }
  }
}
