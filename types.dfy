/** The two records the application keeps in its state: the simulated sensor
    readings and one chat message. The string unions of the source become
    enumerations, each with the exact text the application displays and
    sends, and a parser that is its inverse. */
module Types {
  import opened Wrappers

  /** `'Good' | 'Moderate' | 'Poor'` */
  datatype Ventilation = Good | Moderate | Poor

  /** `'No visible issues' | 'Steam near engine' | 'Blocked air vents'` */
  datatype Camera = NoVisibleIssues | SteamNearEngine | BlockedAirVents

  /** Temperatures in degrees Celsius and the coolant level in percent, as
      integers. */
  datatype SensorData = SensorData(
    engineTemperature: int,
    cabinTemperature: int,
    coolantLevel: int,
    ventilationQuality: Ventilation,
    cameraObservations: Camera,
    outsideTemperature: int)

  datatype Role = User | Assistant

  /** A chat entry. The source's id is an opaque unique string; here it is
      a number drawn from a counter. */
  datatype Message = Message(id: nat, role: Role, content: string)

  function VentilationName(v: Ventilation): string
  {
    match v
    case Good => "Good"
    case Moderate => "Moderate"
    case Poor => "Poor"
  }

  /** The ventilation value whose text is `s`, if any. */
  function ParseVentilation(s: string): (r: Option<Ventilation>)
    ensures r.Some? ==> VentilationName(r.value) == s
    ensures forall v :: VentilationName(v) == s ==> r == Some(v)
  {
    if s == "Good" then Some(Good)
    else if s == "Moderate" then Some(Moderate)
    else if s == "Poor" then Some(Poor)
    else None
  }

  function CameraName(c: Camera): string
  {
    match c
    case NoVisibleIssues => "No visible issues"
    case SteamNearEngine => "Steam near engine"
    case BlockedAirVents => "Blocked air vents"
  }

  /** The camera observation whose text is `s`, if any. */
  function ParseCamera(s: string): (r: Option<Camera>)
    ensures r.Some? ==> CameraName(r.value) == s
    ensures forall c :: CameraName(c) == s ==> r == Some(c)
  {
    if s == "No visible issues" then Some(NoVisibleIssues)
    else if s == "Steam near engine" then Some(SteamNearEngine)
    else if s == "Blocked air vents" then Some(BlockedAirVents)
    else None
  }

  function RoleName(r: Role): string
  {
    match r
    case User => "user"
    case Assistant => "assistant"
  }
}
