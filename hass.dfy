/**
 * What both cards receive from the home-automation host: entity identifiers, the
 * `states` table of a state snapshot, and the card configuration as the user wrote it.
 */
module Hass {
  import opened Wrappers

  type EntityId = string

  /** A state object of the host. Compared by value; its attributes are opaque here. */
  datatype StateObj = StateObj(state: string, attributes: map<string, string>)

  /** The `states` table of one snapshot: entity id to state object. */
  type Snapshot = map<EntityId, StateObj>

  /** The state string that means "motion". */
  const On: string := "on"

  /** `hass.states[id]`: an id absent from the table reads as undefined. */
  function Lookup(s: Snapshot, id: EntityId): Option<StateObj> {
    if id in s then Some(s[id]) else None
  }

  /** `hass.states[id]?.state`. */
  function StateOf(s: Snapshot, id: EntityId): Option<string> {
    if id in s then Some(s[id].state) else None
  }

  /** `stateObj && stateObj.state === "on"`: an absent entity counts as off. */
  predicate IsOn(s: Snapshot, id: EntityId) {
    id in s && s[id].state == On
  }

  /** One camera with the entities that trigger it, after validation. */
  datatype Binding = Binding(cameraEntity: EntityId, motionEntities: seq<EntityId>)

  /** Whether some trigger of `b` reads "on" in `s`. */
  predicate HasMotion(s: Snapshot, b: Binding) {
    exists m :: m in b.motionEntities && IsOn(s, m)
  }

  /** The camera entities of a binding list. */
  function CameraEntities(cams: seq<Binding>): set<EntityId> {
    set b | b in cams :: b.cameraEntity
  }

  /**
   * One entry of `cameras` as written in the configuration. `cameraEntity` is None when the
   * key is absent or null; `motionEntities` is None when the key is absent or not an array.
   */
  datatype RawCamera = RawCamera(cameraEntity: Option<string>, motionEntities: Option<seq<EntityId>>) {

    /** JavaScript truthiness of `camera_entity`: present and not the empty string. */
    predicate HasCameraEntity() {
      cameraEntity.Some? && cameraEntity.value != ""
    }
  }

  /** The `timeout` key: absent, present but null, or a number of seconds. */
  datatype TimeoutField = Absent | Null | Seconds(seconds: int)

  /** The card configuration; `cameras` is None when the key is absent or not an array. */
  datatype RawConfig = RawConfig(cameras: Option<seq<RawCamera>>, timeout: TimeoutField)
}
