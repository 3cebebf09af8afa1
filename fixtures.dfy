/**
 * The example sensors hard-coded in the dashboard (`sensorsListold`), what the panel and
 * the two requests make of them, a route-editing session, and a walk through the
 * handlers of one dashboard.
 */
module Fixtures {
  import opened Wrappers
  import opened Dict
  import opened Types
  import SensorSection
  import SensorStore
  import Waypoints
  import App

  function IntParam(value: int, low: int, high: int, reboot: Option<bool>): SensorParameter {
    SensorParameter(IntType, None, Num(value), Some((low, high)), None, reboot)
  }

  const ACCEL1 := Sensor("accel1", "Accéléromètre Principal", "accelerometer", "core_package", "accel_node", true,
    [("sensitivity", IntParam(2, 1, 16, Some(true))),
     ("sampleRate", IntParam(100, 10, 1000, Some(true))),
     ("filterCutoff", IntParam(50, 1, 100, None))])

  const GYRO1 := Sensor("gyro1", "Gyroscope", "gyroscope", "core_package", "gyro_node", true,
    [("range", IntParam(250, 125, 2000, Some(true))),
     ("bandwidth", IntParam(50, 1, 100, None))])

  lemma FixturesWellTyped()
    ensures forall e :: e in ACCEL1.params ==> WellTyped(e.1)
    ensures forall e :: e in GYRO1.params ==> WellTyped(e.1)
  {
  }

  lemma Accel1Panel()
    ensures SensorSection.RuntimeParams(Some(ACCEL1)) == [ACCEL1.params[2]]
    ensures SensorSection.BootParams(Some(ACCEL1)) == ACCEL1.params[..2]
  {
    var ps := ACCEL1.params;
    assert ps[1..][1..][1..] == [];
    assert SensorSection.FilterByReboot(ps[1..][1..], false) == [ps[2]];
    assert SensorSection.FilterByReboot(ps[1..][1..], true) == [];
    assert SensorSection.FilterByReboot(ps[1..], true) == [ps[1]];
  }

  lemma Accel1Buffer()
    ensures SensorStore.ParamValues(ACCEL1.params) == [("sensitivity", Num(2)), ("sampleRate", Num(100)), ("filterCutoff", Num(50))]
  {
  }

  lemma Accel1KeysDistinct()
    ensures DistinctKeys(ACCEL1.params)
    ensures Keys(ACCEL1.params) == ["sensitivity", "sampleRate", "filterCutoff"]
  {
  }

  lemma StartClick(a: (real, real))
    ensures Waypoints.Place([], Start, "1", a) == [Waypoint("1", Start, a, "Start 1")]
    ensures Waypoints.NextType(Start, []) == Checkpoint
  {
    assert Waypoints.WaypointName(Start, 0) == "Start 1";
    assert Waypoints.WithoutType([], Start) == [];
  }

  lemma CheckpointClick(wa: Waypoint, b: (real, real))
    requires wa.wtype == Start
    ensures Waypoints.Place([wa], Checkpoint, "2", b) == [wa, Waypoint("2", Checkpoint, b, "Checkpoint 2")]
    ensures Waypoints.NextType(Checkpoint, [wa]) == End
  {
    assert Waypoints.WaypointName(Checkpoint, 1) == "Checkpoint 2";
  }

  lemma EndClick(wa: Waypoint, wb: Waypoint, c: (real, real))
    requires wa.wtype == Start && wb.wtype == Checkpoint
    ensures Waypoints.Place([wa, wb], End, "3", c) == [wa, wb, Waypoint("3", End, c, "End 3")]
    ensures Waypoints.NextType(End, [wa, wb]) == End
  {
    assert Waypoints.WaypointName(End, 2) == "End 3";
    assert [wa, wb][1..] == [wb];
    assert Waypoints.WithoutType([wb], End) == [wb];
  }

  lemma CheckpointAfterEnd(wa: Waypoint, wb: Waypoint, wc: Waypoint, d: (real, real))
    requires wc.wtype == End
    ensures Waypoints.Place([wa, wb, wc], Checkpoint, "4", d) == [wa, wb, wc, Waypoint("4", Checkpoint, d, "Checkpoint 4")]
    ensures Waypoints.NextType(Checkpoint, [wa, wb, wc]) == Checkpoint
  {
    assert Waypoints.WaypointName(Checkpoint, 3) == "Checkpoint 4";
    assert wc in [wa, wb, wc];
  }

  lemma DropFirstStart(wa: Waypoint, wb: Waypoint, wc: Waypoint, wd: Waypoint)
    requires wa.wtype == Start && wb.wtype != Start && wc.wtype != Start && wd.wtype != Start
    ensures Waypoints.WithoutType([wa, wb, wc, wd], Start) == [wb, wc, wd]
  {
    var ws := [wa, wb, wc, wd];
    assert ws[1..] == [wb, wc, wd] && ws[1..][1..] == [wc, wd] && ws[1..][1..][1..] == [wd];
    assert Waypoints.WithoutType([wd], Start) == [wd];
    assert Waypoints.WithoutType([wc, wd], Start) == [wc, wd];
    assert Waypoints.WithoutType([wb, wc, wd], Start) == [wb, wc, wd];
  }

  lemma StartAgain(wa: Waypoint, wb: Waypoint, wc: Waypoint, wd: Waypoint, e: (real, real))
    requires wa.wtype == Start && wb.wtype != Start && wc.wtype != Start && wd.wtype != Start
    ensures Waypoints.Place([wa, wb, wc, wd], Start, "5", e) == [wb, wc, wd, Waypoint("5", Start, e, "Start 5")]
  {
    assert Waypoints.WaypointName(Start, 4) == "Start 5";
    DropFirstStart(wa, wb, wc, wd);
  }

  /**
   * A route session: Start at A moves on to Checkpoint, Checkpoint at B moves on to End
   * (no End yet), End at C stays on End; after reselecting Checkpoint, D is appended and
   * the type stays Checkpoint because an End exists; after reselecting Start, E replaces
   * A, leaving one Start, one End and the checkpoints B, D in click order.
   */
  lemma RouteSession(a: (real, real), b: (real, real), c: (real, real), d: (real, real), e: (real, real))
    ensures var ws1 := Waypoints.Place([], Start, "1", a);
      var t1 := Waypoints.NextType(Start, []);
      var ws2 := Waypoints.Place(ws1, t1, "2", b);
      var t2 := Waypoints.NextType(t1, ws1);
      var ws3 := Waypoints.Place(ws2, t2, "3", c);
      var t3 := Waypoints.NextType(t2, ws2);
      var ws4 := Waypoints.Place(ws3, Checkpoint, "4", d);
      var t4 := Waypoints.NextType(Checkpoint, ws3);
      var ws5 := Waypoints.Place(ws4, Start, "5", e);
      && t1 == Checkpoint && t2 == End && t3 == End && t4 == Checkpoint
      && ws5 == [Waypoint("2", Checkpoint, b, "Checkpoint 2"), Waypoint("3", End, c, "End 3"),
                 Waypoint("4", Checkpoint, d, "Checkpoint 4"), Waypoint("5", Start, e, "Start 5")]
  {
    var wa := Waypoint("1", Start, a, "Start 1");
    var wb := Waypoint("2", Checkpoint, b, "Checkpoint 2");
    var wc := Waypoint("3", End, c, "End 3");
    var wd := Waypoint("4", Checkpoint, d, "Checkpoint 4");
    StartClick(a);
    CheckpointClick(wa, b);
    EndClick(wa, wb, c);
    CheckpointAfterEnd(wa, wb, wc, d);
    StartAgain(wa, wb, wc, wd, e);
  }

  /** The snapshot a bridge holding the two example sensors would send. */
  const SNAPSHOT: Entries<SensorStore.SensorConfig> :=
    [("accel1", SensorStore.SensorConfig("accelerometer", true, "core_package", "accel_node", ACCEL1.params)),
     ("gyro1", SensorStore.SensorConfig("gyroscope", true, "core_package", "gyro_node", GYRO1.params))]

  /** A dashboard that has just ingested SNAPSHOT: accel1 is selected and its values are buffered. */
  method LoadedDashboard() returns (dash: App.Dashboard)
    ensures fresh(dash) && dash.Valid() && dash.BufferMatchesSelection()
    ensures dash.mode == Manual && |dash.sensorsList| == 2
    ensures dash.sensorsList[0].id == "accel1" && dash.sensorsList[1].id == "gyro1"
    ensures dash.selectedSensor.Some? && dash.selectedSensor.value.id == "accel1"
    ensures dash.selectedSensor.value.params == ACCEL1.params
    ensures dash.alert == App.CONFIG_LOADED
  {
    dash := new App.Dashboard();
    assert DistinctKeys(ACCEL1.params) && DistinctKeys(GYRO1.params);
    var ok := dash.IngestConfig(SNAPSHOT);
    assert SNAPSHOT[0].0 == "accel1" && SNAPSHOT[0].1.params == ACCEL1.params;
    assert SNAPSHOT[1].0 == "gyro1";
  }

  /** The save-and-reboot sequence as a client sees it: no reboot after a failed update. */
  method RebootWalkthrough()
  {
    var dash := LoadedDashboard();
    var calls := dash.SaveAndReboot(App.Failed, App.Succeeded);
    assert App.Reboot !in calls && dash.alert == App.UPDATE_FAILED;

    calls := dash.SaveAndReboot(App.Succeeded, App.Failed);
    assert |calls| == 2 && calls[0].UpdateParams? && calls[1] == App.Reboot;
    assert dash.alert == App.REBOOT_FAILED;
  }

  /** Selecting a sensor the list does not hold keeps the current selection. */
  method UnknownSensorWalkthrough()
  {
    var dash := LoadedDashboard();
    var before := dash.selectedSensor;
    assert forall s :: s in dash.sensorsList ==> s.id != "lidar";
    dash.SensorChange("lidar");
    assert dash.selectedSensor == before;
  }

  /** Editing a buffered value keeps the buffer aligned with the selected sensor. */
  method EditWalkthrough()
  {
    var dash := LoadedDashboard();
    Accel1KeysDistinct();
    dash.ParamChange("filterCutoff", Num(75));
    assert dash.BufferMatchesSelection();
  }

  /** Saving a buffer that matches the selection sends exactly one update and no reboot. */
  method SaveWalkthrough()
  {
    var dash := LoadedDashboard();
    var calls := dash.SaveParams(App.Succeeded);
    assert |calls| == 1 && calls[0].UpdateParams? && App.Reboot !in calls;
    assert dash.alert == App.PARAMS_UPDATED && !dash.isSaving;
  }

  /** A refused mode change leaves the mode alone but still sent the request. */
  method ModeWalkthrough()
  {
    var dash := LoadedDashboard();
    var call := dash.ChangeMode(Autonomous, App.Failed);
    assert dash.mode == Manual && call == App.SetMode(1);
  }
}
