/**
 * The dashboard's session state and its event handlers: configuration ingestion, sensor
 * selection and parameter editing, the save and save-and-reboot workflows, confirmed
 * mode/status changes, the route editor and the drive pad.
 *
 * Every bridge service call is represented by the outcome its callback reports, passed
 * in as a parameter; each handler returns the service calls it issued, in order.
 */
module App {
  import opened Wrappers
  import opened Dict
  import opened Types
  import SensorStore
  import SensorSection
  import Waypoints
  import Velocity
  import Header

  datatype AlertKind = Success | Error

  datatype Alert = Alert(message: string, kind: AlertKind)

  /** Which of its two callbacks a service call ended in. */
  datatype Outcome = Succeeded | Failed

  /** A request sent to the bridge: `/set_mode`, `/set_status`, `/update_params` or `/reboot`. */
  datatype ServiceCall =
    | SetMode(mode: int)
    | SetStatus(status: int)
    | UpdateParams(request: SensorStore.UpdateRequest)
    | Reboot

  const NO_ALERT := Alert("", Success)
  const CONFIG_LOADED := Alert("Configuration récupérée avec succès", Success)
  const MODE_CHANGED := Alert("Mode changé avec succès", Success)
  const MODE_FAILED := Alert("Erreur lors du changement de mode", Error)
  const STATUS_CHANGED := Alert("Statut changé avec succès", Success)
  const STATUS_FAILED := Alert("Erreur lors du changement de statut", Error)
  const NO_SENSOR := Alert("Aucun capteur sélectionné", Error)
  const PARAMS_UPDATED := Alert("Paramètres mis à jour avec succès", Success)
  const UPDATE_FAILED := Alert("Erreur lors de la mise à jour des paramètres", Error)
  const SAVE_FAILED := Alert("Erreur lors de la sauvegarde", Error)
  const REBOOTED := Alert("Paramètres sauvegardés et redémarrage effectué", Success)
  const REBOOT_FAILED := Alert("Erreur lors du redémarrage", Error)

  /** The operator can tell a failed update (nothing applied) from a failed reboot (parameters applied). */
  lemma FailureAlertsDistinct()
    ensures UPDATE_FAILED != REBOOT_FAILED && UPDATE_FAILED.kind == REBOOT_FAILED.kind == Error
    ensures REBOOTED.kind == Success && PARAMS_UPDATED.kind == Success
  {
  }

  function MoveAlert(d: Velocity.Direction): Alert {
    Alert("Commande envoyée: " + Velocity.DirectionName(d), Success)
  }

  class Dashboard {
    var mode: OperationMode
    var status: RobotStatus
    var waypoints: seq<Waypoint>
    var selectedWaypointType: WaypointType
    var isSaving: bool
    var isRebooting: bool
    var selectedSensor: Option<Sensor>
    /** The pending edit buffer: parameter name to candidate value, for the selected sensor. */
    var sensorParams: Entries<Value>
    var alert: Alert
    var sensorsList: seq<Sensor>

    /**
     * Every sensor's parameters form an object, the selection is one of the loaded
     * sensors, and the route holds at most one Start and one End.
     */
    ghost predicate Valid()
      reads this
    {
      && (forall s :: s in sensorsList ==> DistinctKeys(s.params))
      && (selectedSensor.Some? ==> selectedSensor.value in sensorsList)
      && Waypoints.AtMostOneEndpoint(waypoints)
    }

    /** The pending buffer has exactly the selected sensor's parameter names, in the sensor's order. */
    ghost predicate BufferMatchesSelection()
      reads this
    {
      selectedSensor.Some? ==> Keys(sensorParams) == Keys(selectedSensor.value.params)
    }

    constructor ()
      ensures Valid() && BufferMatchesSelection()
      ensures mode == Manual && status == Stopped
      ensures waypoints == [] && selectedWaypointType == Start
      ensures !isSaving && !isRebooting
      ensures selectedSensor == None && sensorParams == [] && sensorsList == []
      ensures alert == NO_ALERT
    {
      mode, status := Manual, Stopped;
      waypoints, selectedWaypointType := [], Start;
      isSaving, isRebooting := false, false;
      selectedSensor, sensorParams, sensorsList := None, [], [];
      alert := NO_ALERT;
    }

    /**
     * The `/get_config` reply handler: the sensor list is rebuilt from the snapshot, the
     * first sensor is selected and seeds the buffer. The handler reads element 0
     * unconditionally, so an empty snapshot throws after the list has been emptied and the
     * selection cleared, before the buffer is reseeded or the success alert raised.
     */
    method IngestConfig(snapshot: Entries<SensorStore.SensorConfig>) returns (ok: bool)
      requires Valid() && SensorStore.WellFormedSnapshot(snapshot)
      modifies this`sensorsList, this`selectedSensor, this`sensorParams, this`alert
      ensures Valid() && BufferMatchesSelection()
      ensures SensorStore.BuiltFrom(sensorsList, snapshot)
      ensures ok <==> |snapshot| > 0
      ensures ok ==> && selectedSensor == Some(sensorsList[0])
                     && sensorParams == SensorStore.ParamValues(sensorsList[0].params)
                     && alert == CONFIG_LOADED
      ensures !ok ==> selectedSensor == None && sensorParams == old(sensorParams) && alert == old(alert)
    {
      var sensors := SensorStore.BuildSensorList(snapshot);
      sensorsList := sensors;
      if |sensors| == 0 {
        selectedSensor := None;
        return false;
      }
      selectedSensor := Some(sensors[0]);
      sensorParams := SensorStore.ParamValues(sensors[0].params);
      alert := CONFIG_LOADED;
      ok := true;
    }

    /** `handleSensorChange`: an unknown id changes nothing. */
    method SensorChange(sensorId: string)
      requires Valid()
      modifies this`selectedSensor, this`sensorParams
      ensures Valid()
      ensures var found := SensorStore.FindSensor(sensorsList, sensorId);
        && (found.Some? ==> selectedSensor == found && sensorParams == SensorStore.ParamValues(found.value.params))
        && (found.None? ==> selectedSensor == old(selectedSensor) && sensorParams == old(sensorParams))
      ensures SensorStore.FindSensor(sensorsList, sensorId).Some? || old(BufferMatchesSelection()) ==> BufferMatchesSelection()
    {
      var found := SensorStore.FindSensor(sensorsList, sensorId);
      if found.Some? {
        selectedSensor := found;
        sensorParams := SensorStore.ParamValues(found.value.params);
      }
    }

    /**
     * `handleParamChange`: only the entry for `name` changes. The handler itself accepts any
     * name; its callers, the panel rows, pass only names of the selected sensor's
     * parameters, which keeps the buffer matching, and a value from the row's own control,
     * which keeps the row's control.
     */
    method ParamChange(name: string, value: Value)
      modifies this`sensorParams
      ensures sensorParams == Put(old(sensorParams), name, value)
      ensures old(BufferMatchesSelection()) && selectedSensor.Some? && name in Keys(selectedSensor.value.params) ==>
        BufferMatchesSelection()
      ensures SensorSection.EditorProduces(SensorSection.EditorFor(Get(old(sensorParams), name)), value) ==>
        && Keys(sensorParams) == Keys(old(sensorParams))
        && SensorSection.EditorFor(Get(sensorParams, name)) == SensorSection.EditorFor(Get(old(sensorParams), name))
    {
      if SensorSection.EditorProduces(SensorSection.EditorFor(Get(sensorParams, name)), value) {
        SensorSection.EditsKeepKind(sensorParams, name, value);
      }
      sensorParams := Put(sensorParams, name, value);
    }

    /** `callChangeMode`: the mode is committed only in the success callback. */
    method ChangeMode(newMode: OperationMode, outcome: Outcome) returns (call: ServiceCall)
      requires Valid()
      modifies this`mode, this`alert
      ensures Valid()
      ensures call == SetMode(ModeCode(newMode))
      ensures mode == (if outcome == Succeeded then newMode else old(mode))
      ensures alert == (if outcome == Succeeded then MODE_CHANGED else MODE_FAILED)
    {
      call := SetMode(ModeCode(newMode));
      if outcome == Succeeded {
        mode := newMode;
        alert := MODE_CHANGED;
      } else {
        alert := MODE_FAILED;
      }
    }

    /** `callChangeStatus`: the status is committed only in the success callback. */
    method ChangeStatus(newStatus: RobotStatus, outcome: Outcome) returns (call: ServiceCall)
      requires Valid()
      modifies this`status, this`alert
      ensures Valid()
      ensures call == SetStatus(StatusCode(newStatus))
      ensures status == (if outcome == Succeeded then newStatus else old(status))
      ensures alert == (if outcome == Succeeded then STATUS_CHANGED else STATUS_FAILED)
    {
      call := SetStatus(StatusCode(newStatus));
      if outcome == Succeeded {
        status := newStatus;
        alert := STATUS_CHANGED;
      } else {
        alert := STATUS_FAILED;
      }
    }

    /** `handleStart`, `handlePause`, `handleStop`: a confirmed press of an enabled button changes the status. */
    method PressStatusButton(b: Header.StatusButton, outcome: Outcome) returns (call: ServiceCall)
      requires Valid()
      modifies this`status, this`alert
      ensures Valid()
      ensures call == SetStatus(StatusCode(Header.Target(b)))
      ensures status == (if outcome == Succeeded then Header.Target(b) else old(status))
      ensures alert == (if outcome == Succeeded then STATUS_CHANGED else STATUS_FAILED)
      ensures Header.Enabled(b, old(status)) && outcome == Succeeded ==> status != old(status)
    {
      Header.EnabledButtonsChangeStatus(status);
      call := ChangeStatus(Header.Target(b), outcome);
    }

    /**
     * `handleSaveParams`. Without a selected sensor it reports the error, issues nothing
     * and, returning before any reset, leaves `isSaving` set. A buffer key the sensor lacks
     * makes the request construction throw into the catch block. Otherwise one
     * `/update_params` request for the live half is issued; its outcome only settles
     * `isSaving` and the alert, and neither the sensor list nor the buffer changes.
     */
    method SaveParams(outcome: Outcome) returns (calls: seq<ServiceCall>)
      requires Valid()
      modifies this`isSaving, this`alert
      ensures Valid()
      ensures selectedSensor.None? ==> isSaving && calls == [] && alert == NO_SENSOR
      ensures selectedSensor.Some? ==>
        var req := SensorStore.BuildUpdateRequest(selectedSensor.value, sensorParams, false);
        && !isSaving
        && (req.Err? ==> calls == [] && alert == SAVE_FAILED)
        && (req.Ok? ==> calls == [UpdateParams(req.value)]
                        && alert == (if outcome == Succeeded then PARAMS_UPDATED else UPDATE_FAILED))
      ensures selectedSensor.Some? && BufferMatchesSelection() ==> |calls| == 1 && calls[0].UpdateParams?
      ensures Reboot !in calls
    {
      isSaving := true;
      if selectedSensor.None? {
        alert := NO_SENSOR;
        return [];
      }
      var sensor := selectedSensor.value;
      if BufferMatchesSelection() {
        SensorStore.MatchingBufferBuilds(sensor, sensorParams, false);
      }
      var req := SensorStore.BuildUpdateRequest(sensor, sensorParams, false);
      calls := SendLiveUpdate(req, outcome);
    }

    /**
     * The `try` body of `handleSaveParams` from the built request on: the catch path for a
     * fault, else the one `/update_params` call whose callbacks settle the flag and alert.
     */
    method SendLiveUpdate(req: Result<SensorStore.UpdateRequest, SensorStore.BuildFault>, outcome: Outcome)
      returns (calls: seq<ServiceCall>)
      requires Valid()
      modifies this`isSaving, this`alert
      ensures Valid()
      ensures !isSaving
      ensures req.Err? ==> calls == [] && alert == SAVE_FAILED
      ensures req.Ok? ==> calls == [UpdateParams(req.value)] && alert == (if outcome == Succeeded then PARAMS_UPDATED else UPDATE_FAILED)
      ensures Reboot !in calls
    {
      isSaving := false;
      if req.Err? {
        calls := [];
        alert := SAVE_FAILED;
      } else {
        calls := [UpdateParams(req.value)];
        alert := if outcome == Succeeded then PARAMS_UPDATED else UPDATE_FAILED;
      }
    }

    /**
     * `handleSaveAndReboot`. Without a selected sensor it reports the error, issues
     * nothing and leaves `isRebooting` set. Otherwise the reboot-required half is sent,
     * and `/reboot` is called only from that update's success callback; an update failure
     * ends with no reboot call, and a reboot failure is reported with its own alert.
     */
    method SaveAndReboot(updateOutcome: Outcome, rebootOutcome: Outcome) returns (calls: seq<ServiceCall>)
      requires Valid()
      modifies this`isRebooting, this`alert
      ensures Valid()
      ensures selectedSensor.None? ==> isRebooting && calls == [] && alert == NO_SENSOR
      ensures selectedSensor.Some? ==>
        var req := SensorStore.BuildUpdateRequest(selectedSensor.value, sensorParams, true);
        && !isRebooting
        && (req.Err? ==> calls == [] && alert == REBOOT_FAILED)
        && (req.Ok? && updateOutcome == Failed ==> calls == [UpdateParams(req.value)] && alert == UPDATE_FAILED)
        && (req.Ok? && updateOutcome == Succeeded ==>
              calls == [UpdateParams(req.value), Reboot]
              && alert == (if rebootOutcome == Succeeded then REBOOTED else REBOOT_FAILED))
      ensures Reboot in calls <==>
        selectedSensor.Some? && updateOutcome == Succeeded
        && SensorStore.BuildUpdateRequest(selectedSensor.value, sensorParams, true).Ok?
      ensures Reboot in calls ==> calls[0].UpdateParams? && calls[|calls| - 1] == Reboot
      ensures selectedSensor.Some? && BufferMatchesSelection() ==> |calls| > 0 && calls[0].UpdateParams?
    {
      isRebooting := true;
      if selectedSensor.None? {
        alert := NO_SENSOR;
        return [];
      }
      var sensor := selectedSensor.value;
      if BufferMatchesSelection() {
        SensorStore.MatchingBufferBuilds(sensor, sensorParams, true);
      }
      var req := SensorStore.BuildUpdateRequest(sensor, sensorParams, true);
      calls := SendRebootUpdate(req, updateOutcome, rebootOutcome);
    }

    /**
     * The `try` body of `handleSaveAndReboot` from the built request on: the catch path for
     * a fault, else the `/update_params` call whose success callback calls `/reboot`.
     */
    method SendRebootUpdate(req: Result<SensorStore.UpdateRequest, SensorStore.BuildFault>, updateOutcome: Outcome, rebootOutcome: Outcome)
      returns (calls: seq<ServiceCall>)
      requires Valid()
      modifies this`isRebooting, this`alert
      ensures Valid()
      ensures !isRebooting
      ensures req.Err? ==> calls == [] && alert == REBOOT_FAILED
      ensures req.Ok? && updateOutcome == Failed ==> calls == [UpdateParams(req.value)] && alert == UPDATE_FAILED
      ensures req.Ok? && updateOutcome == Succeeded ==>
        calls == [UpdateParams(req.value), Reboot] && alert == (if rebootOutcome == Succeeded then REBOOTED else REBOOT_FAILED)
      ensures Reboot in calls <==> req.Ok? && updateOutcome == Succeeded
      ensures req.Ok? ==> |calls| > 0 && calls[0].UpdateParams?
    {
      isRebooting := false;
      if req.Err? {
        calls := [];
        alert := REBOOT_FAILED;
      } else if updateOutcome == Succeeded {
        calls := [UpdateParams(req.value), Reboot];
        alert := if rebootOutcome == Succeeded then REBOOTED else REBOOT_FAILED;
      } else {
        calls := [UpdateParams(req.value)];
        assert Reboot !in calls;
        alert := UPDATE_FAILED;
      }
    }

    /** `handleMapClick`: place a waypoint of the selected type, then advance the type. */
    method MapClick(id: string, position: (real, real))
      requires Valid()
      modifies this`waypoints, this`selectedWaypointType
      ensures Valid()
      ensures waypoints == Waypoints.Place(old(waypoints), old(selectedWaypointType), id, position)
      ensures selectedWaypointType == Waypoints.NextType(old(selectedWaypointType), old(waypoints))
    {
      Waypoints.PlaceKeepsAtMostOneEndpoint(waypoints, selectedWaypointType, id, position);
      var next := Waypoints.NextType(selectedWaypointType, waypoints);
      waypoints := Waypoints.Place(waypoints, selectedWaypointType, id, position);
      selectedWaypointType := next;
    }

    /** The map's type selector. */
    method SelectWaypointType(t: WaypointType)
      requires Valid()
      modifies this`selectedWaypointType
      ensures Valid() && selectedWaypointType == t
    {
      selectedWaypointType := t;
    }

    /** `removeWaypoint`: the selected type is untouched. */
    method RemoveWaypoint(id: string)
      requires Valid()
      modifies this`waypoints
      ensures Valid()
      ensures waypoints == Waypoints.RemoveById(old(waypoints), id)
    {
      Waypoints.RemoveKeepsAtMostOneEndpoint(waypoints, id);
      waypoints := Waypoints.RemoveById(waypoints, id);
    }

    /** `handleMove`: returns the message published on `/cmd_vel` and confirms the command. */
    method Move(d: Velocity.Direction) returns (message: Velocity.Twist)
      requires Valid()
      modifies this`alert
      ensures Valid()
      ensures Velocity.IsCommandFor(d, message)
      ensures alert == MoveAlert(d)
    {
      message := Velocity.Command(d);
      alert := MoveAlert(d);
    }
  }
}
