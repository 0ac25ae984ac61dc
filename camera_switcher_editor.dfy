/**
 * The visual editor of the camera-switcher card (camera-switcher-card.js, class
 * CameraSwitcherCardEditor): list edits on the `cameras` of the configuration being edited.
 * Each edit copies the list, changes the copy and installs it as the new `cameras`; every
 * other key of the configuration is kept.
 */
module CameraSwitcherEditor {
  import opened Wrappers
  import opened Hass

  /** `config.cameras || []`. */
  function CamerasOf(cfg: RawConfig): seq<RawCamera> {
    cfg.cameras.GetOr([])
  }

  /** `camera.motion_entities || []`. */
  function TriggersOf(c: RawCamera): seq<EntityId> {
    c.motionEntities.GetOr([])
  }

  /** The entry "Add Camera" appends: `{camera_entity: "", motion_entities: []}`. */
  function NewCamera(): RawCamera {
    RawCamera(Some(""), Some([]))
  }

  /** Whether `_moveCamera(index, direction)` has a neighbour to swap with. */
  predicate CanMove(n: nat, index: nat, direction: int) {
    (direction == -1 && index > 0) || (direction == 1 && index < n - 1)
  }

  /** The list after `_moveCamera(index, direction)`: swapped with the neighbour, or as it was. */
  function Moved<T>(s: seq<T>, index: nat, direction: int): (r: seq<T>)
    requires index < |s|
    ensures |r| == |s| && multiset(r) == multiset(s)
    ensures CanMove(|s|, index, direction) ==>
      && r[index] == s[index + direction] && r[index + direction] == s[index]
      && forall k | 0 <= k < |s| && k != index && k != index + direction :: r[k] == s[k]
    ensures !CanMove(|s|, index, direction) ==> r == s
  {
    if CanMove(|s|, index, direction) then
      var other := index + direction;
      var r := s[index := s[other]][other := s[index]];
      SwapKeepsMultiset(s, index, other);
      r
    else s
  }

  /** Exchanging two elements keeps the multiset of the list. */
  lemma SwapKeepsMultiset<T>(s: seq<T>, i: nat, j: nat)
    requires i < |s| && j < |s|
    ensures multiset(s[i := s[j]][j := s[i]]) == multiset(s)
  {
    var t := s[i := s[j]];
    assert multiset(t) == multiset(s) - multiset{s[i]} + multiset{s[j]};
    assert t[j] == s[j] || i == j;
  }

  /** The list after `splice(k, 1)` with `k` an index of it. */
  function RemovedAt<T>(s: seq<T>, k: nat): (r: seq<T>)
    requires k < |s|
    ensures |r| == |s| - 1
    ensures forall j | 0 <= j < k :: r[j] == s[j]
    ensures forall j | k <= j < |r| :: r[j] == s[j + 1]
    ensures multiset(r) + multiset{s[k]} == multiset(s)
  {
    assert s == s[..k] + [s[k]] + s[k + 1..];
    s[..k] + s[k + 1..]
  }

  /** Moving an entry up and then moving it back down restores the list. */
  lemma MoveUpThenDownRestores<T>(s: seq<T>, index: nat)
    requires 0 < index < |s|
    ensures Moved(Moved(s, index, -1), index - 1, 1) == s
  {
    var up := Moved(s, index, -1);
    assert CanMove(|up|, index - 1, 1);
    var back := Moved(up, index - 1, 1);
    assert forall k | 0 <= k < |s| :: back[k] == s[k];
  }

  /** Removing the entry just appended restores the list. */
  lemma {:induction false} RemoveLastUndoesAppend<T>(s: seq<T>, x: T)
    ensures RemovedAt(s + [x], |s|) == s
  {
    var r := RemovedAt(s + [x], |s|);
    assert forall j | 0 <= j < |s| :: r[j] == (s + [x])[j] == s[j];
  }

  class CameraSwitcherCardEditor {
    /** `_config`: the configuration being edited. */
    var config: RawConfig

    /** `setConfig`: the editor takes the configuration as it is, without validation. */
    constructor (cfg: RawConfig)
      ensures config == cfg
    {
      config := cfg;
    }

    /** `_moveCamera`: swap entry `index` with its neighbour above (-1) or below (1); at the ends, change nothing. */
    method MoveCamera(index: nat, direction: int)
      requires index < |CamerasOf(config)|
      modifies this
      ensures CanMove(|CamerasOf(old(config))|, index, direction) ==>
        config == old(config).(cameras := Some(Moved(CamerasOf(old(config)), index, direction)))
      ensures !CanMove(|CamerasOf(old(config))|, index, direction) ==> config == old(config)
    {
      var cams := CamerasOf(config);
      if direction == -1 && index > 0 {
        cams := cams[index := cams[index - 1]][index - 1 := cams[index]];
      } else if direction == 1 && index < |cams| - 1 {
        cams := cams[index := cams[index + 1]][index + 1 := cams[index]];
      } else {
        return;
      }
      config := config.(cameras := Some(cams));
    }

    /** `_removeCamera`: drop entry `index`. */
    method RemoveCamera(index: nat)
      requires index < |CamerasOf(config)|
      modifies this
      ensures config == old(config).(cameras := Some(RemovedAt(CamerasOf(old(config)), index)))
    {
      var cams := CamerasOf(config);
      cams := cams[..index] + cams[index + 1..];
      config := config.(cameras := Some(cams));
    }

    /** `_addCamera`: append an empty entry. */
    method AddCamera()
      modifies this
      ensures config == old(config).(cameras := Some(CamerasOf(old(config)) + [NewCamera()]))
    {
      var cams := CamerasOf(config);
      cams := cams + [RawCamera(Some(""), Some([]))];
      config := config.(cameras := Some(cams));
    }

    /**
     * `_updateMotionEntities`: trigger `motionIndex` of camera `camIndex` is removed when the
     * value is null and replaced by it otherwise; the camera's other keys are kept.
     */
    method UpdateMotionEntities(camIndex: nat, motionIndex: nat, value: Option<EntityId>)
      requires camIndex < |CamerasOf(config)|
      requires motionIndex < |TriggersOf(CamerasOf(config)[camIndex])|
      modifies this
      ensures
        var cams := CamerasOf(old(config));
        var motions := TriggersOf(cams[camIndex]);
        config == old(config).(cameras := Some(cams[camIndex := cams[camIndex].(motionEntities := Some(
          if value.None? then RemovedAt(motions, motionIndex) else motions[motionIndex := value.value]))]))
    {
      var cams := CamerasOf(config);
      var motions := TriggersOf(cams[camIndex]);
      if value.None? {
        motions := motions[..motionIndex] + motions[motionIndex + 1..];
      } else {
        motions := motions[motionIndex := value.value];
      }
      cams := cams[camIndex := cams[camIndex].(motionEntities := Some(motions))];
      config := config.(cameras := Some(cams));
    }

    /** `_addMotionEntity`: append an empty trigger to camera `camIndex`. */
    method AddMotionEntity(camIndex: nat)
      requires camIndex < |CamerasOf(config)|
      modifies this
      ensures
        var cams := CamerasOf(old(config));
        config == old(config).(cameras := Some(cams[camIndex := cams[camIndex].(motionEntities := Some(
          TriggersOf(cams[camIndex]) + [""]))]))
    {
      var cams := CamerasOf(config);
      var motions := TriggersOf(cams[camIndex]);
      motions := motions + [""];
      cams := cams[camIndex := cams[camIndex].(motionEntities := Some(motions))];
      config := config.(cameras := Some(cams));
    }

    /** `_removeMotionEntity`: `_updateMotionEntities` with null. */
    method RemoveMotionEntity(camIndex: nat, motionIndex: nat)
      requires camIndex < |CamerasOf(config)|
      requires motionIndex < |TriggersOf(CamerasOf(config)[camIndex])|
      modifies this
      ensures
        var cams := CamerasOf(old(config));
        config == old(config).(cameras := Some(cams[camIndex := cams[camIndex].(motionEntities := Some(
          RemovedAt(TriggersOf(cams[camIndex]), motionIndex)))]))
    {
      UpdateMotionEntities(camIndex, motionIndex, None);
    }
  }
}
