/**
 * The two selection rules side by side: the camera-switcher card shows the LAST-listed
 * camera with motion, the motion-camera card the FIRST-listed one.
 */
module SelectionVariants {
  import opened Wrappers
  import opened Hass
  import CameraSwitcher
  import MotionCamera

  /** Both rules see motion in exactly the same snapshots. */
  lemma AgreeOnWhetherAnyMotion(s: Snapshot, cams: seq<Binding>)
    ensures MotionCamera.FirstTriggered(s, cams).None? <==> CameraSwitcher.LastTriggered(s, cams).None?
  {
  }

  /** When exactly one binding has motion, both rules pick its camera. */
  lemma AgreeOnSingleMotion(s: Snapshot, cams: seq<Binding>, i: int)
    requires 0 <= i < |cams| && HasMotion(s, cams[i])
    requires forall j | 0 <= j < |cams| && j != i :: !HasMotion(s, cams[j])
    ensures MotionCamera.FirstTriggered(s, cams) == Some(cams[i].cameraEntity)
    ensures CameraSwitcher.LastTriggered(s, cams) == Some(cams[i].cameraEntity)
  {
    MotionCamera.FirstTriggeredIsFirstWithMotion(s, cams, i);
    CameraSwitcher.LastTriggeredIsLastWithMotion(s, cams, i);
  }

  /** With motion at two cameras the rules disagree: first-listed against last-listed. */
  lemma DisagreeOnTwoMotions()
    ensures
      var cams := [Binding("camera.front", ["binary_sensor.front"]), Binding("camera.back", ["binary_sensor.back"])];
      var s := map["binary_sensor.front" := StateObj(On, map[]), "binary_sensor.back" := StateObj(On, map[])];
      && MotionCamera.FirstTriggered(s, cams) == Some("camera.front")
      && CameraSwitcher.LastTriggered(s, cams) == Some("camera.back")
  {
    var cams := [Binding("camera.front", ["binary_sensor.front"]), Binding("camera.back", ["binary_sensor.back"])];
    var s := map["binary_sensor.front" := StateObj(On, map[]), "binary_sensor.back" := StateObj(On, map[])];
    assert cams[0].motionEntities[0] == "binary_sensor.front";
    assert cams[1].motionEntities[0] == "binary_sensor.back";
    assert IsOn(s, "binary_sensor.front") && IsOn(s, "binary_sensor.back");
    assert HasMotion(s, cams[0]) && HasMotion(s, cams[1]);
    MotionCamera.FirstTriggeredIsFirstWithMotion(s, cams, 0);
    CameraSwitcher.LastTriggeredIsLastWithMotion(s, cams, 1);
  }
}
