/**
 * The dashboard's shared vocabulary: operation modes and robot statuses with the integer
 * codes the bridge exchanges, sensor parameters with their kind tag and optional
 * range/options/reboot flag, sensors, and route waypoints.
 */
module Types {
  import opened Wrappers
  import opened Dict

  datatype OperationMode = Manual | Autonomous | Debugging

  /** The enum's numeric value, which is what a mode-change request carries. */
  function ModeCode(m: OperationMode): (c: int)
    ensures 0 <= c <= 2
  {
    match m
    case Manual => 0
    case Autonomous => 1
    case Debugging => 2
  }

  function ModeOfCode(c: int): (r: Option<OperationMode>)
    ensures r.Some? <==> 0 <= c <= 2
    ensures r.Some? ==> ModeCode(r.value) == c
  {
    if c == 0 then Some(Manual)
    else if c == 1 then Some(Autonomous)
    else if c == 2 then Some(Debugging)
    else None
  }

  lemma ModeCodeRoundTrip(m: OperationMode)
    ensures ModeOfCode(ModeCode(m)) == Some(m)
  {
  }

  lemma ModeCodeInjective(a: OperationMode, b: OperationMode)
    ensures ModeCode(a) == ModeCode(b) ==> a == b
  {
  }

  datatype RobotStatus = Stopped | Running | Paused

  /** The enum's numeric value, which is what a status-change request carries. */
  function StatusCode(s: RobotStatus): (c: int)
    ensures 0 <= c <= 2
  {
    match s
    case Stopped => 0
    case Running => 1
    case Paused => 2
  }

  function StatusOfCode(c: int): (r: Option<RobotStatus>)
    ensures r.Some? <==> 0 <= c <= 2
    ensures r.Some? ==> StatusCode(r.value) == c
  {
    if c == 0 then Some(Stopped)
    else if c == 1 then Some(Running)
    else if c == 2 then Some(Paused)
    else None
  }

  lemma StatusCodeRoundTrip(s: RobotStatus)
    ensures StatusOfCode(StatusCode(s)) == Some(s)
  {
  }

  lemma StatusCodeInjective(a: RobotStatus, b: RobotStatus)
    ensures StatusCode(a) == StatusCode(b) ==> a == b
  {
  }

  /** The `type` tag of a sensor parameter. */
  datatype ParamType = StringType | IntType | BooleanType

  function TypeTag(t: ParamType): string {
    match t
    case StringType => "string"
    case IntType => "int"
    case BooleanType => "boolean"
  }

  function TypeOfTag(tag: string): (r: Option<ParamType>)
    ensures r.Some? <==> tag in {"string", "int", "boolean"}
    ensures r.Some? ==> TypeTag(r.value) == tag
  {
    if tag == "string" then Some(StringType)
    else if tag == "int" then Some(IntType)
    else if tag == "boolean" then Some(BooleanType)
    else None
  }

  lemma TypeTagRoundTrip(t: ParamType)
    ensures TypeOfTag(TypeTag(t)) == Some(t)
  {
  }

  /** A parameter value as JavaScript sees it at run time: a number, a string or a boolean. */
  datatype Value = Num(n: int) | Str(s: string) | Bool(b: bool)

  datatype SensorParameter = SensorParameter(
    paramType: ParamType,
    description: Option<string>,
    value: Value,
    range: Option<(int, int)>,
    options: Option<seq<string>>,
    requiresReboot: Option<bool>)

  /** The declared shape: a range only on a numeric value, options only on a string value. */
  predicate WellTyped(p: SensorParameter) {
    && (p.range.Some? ==> p.value.Num?)
    && (p.options.Some? ==> p.value.Str?)
  }

  /**
   * `param.requires_reboot` read as a condition: the flag is optional and an absent flag
   * is falsy, so such a parameter is a live one.
   */
  function RequiresReboot(p: SensorParameter): (r: bool)
    ensures r <==> p.requiresReboot == Some(true)
  {
    match p.requiresReboot
    case Some(flag) => flag
    case None => false
  }

  datatype Sensor = Sensor(
    id: string,
    name: string,
    sensorType: string,
    packageName: string,
    nodeName: string,
    enabled: bool,
    params: Entries<SensorParameter>)

  datatype WaypointType = Start | Checkpoint | End

  /** A route point; `position` is a (latitude, longitude) pair that is never computed on. */
  datatype Waypoint = Waypoint(id: string, wtype: WaypointType, position: (real, real), name: string)
}
