/** The simulation panel's change handlers. Each takes the previous sensor
    record and returns a copy with exactly one field replaced, as the
    `{ ...prev, [key]: value }` updates of the source do. The panel's sliders
    declare bounds and steps, and its selects offer fixed option lists; both
    are stated here and related to the record. */
module SensorPanel {
  import opened Types

  /** The keys of the record's numeric fields. */
  datatype NumericKey = EngineTemperature | CabinTemperature | CoolantLevel | OutsideTemperature

  /** The keys of the record's fields chosen from a list. */
  datatype ChoiceKey = VentilationQuality | CameraObservations

  /** The numeric field `key` of `s`. */
  function Reading(s: SensorData, key: NumericKey): int
  {
    match key
    case EngineTemperature => s.engineTemperature
    case CabinTemperature => s.cabinTemperature
    case CoolantLevel => s.coolantLevel
    case OutsideTemperature => s.outsideTemperature
  }

  /** The text of the choice field `key` of `s`. */
  function ChoiceText(s: SensorData, key: ChoiceKey): string
  {
    match key
    case VentilationQuality => VentilationName(s.ventilationQuality)
    case CameraObservations => CameraName(s.cameraObservations)
  }

  /** `{ ...prev, [key]: v }` for a numeric key. */
  function WithReading(prev: SensorData, key: NumericKey, v: int): SensorData
  {
    match key
    case EngineTemperature => prev.(engineTemperature := v)
    case CabinTemperature => prev.(cabinTemperature := v)
    case CoolantLevel => prev.(coolantLevel := v)
    case OutsideTemperature => prev.(outsideTemperature := v)
  }

  /** A slider reports its thumbs' values; the field takes the first one.
      Every other field keeps its value. */
  function HandleSliderChange(prev: SensorData, key: NumericKey, value: seq<int>): (r: SensorData)
    requires |value| > 0
    ensures Reading(r, key) == value[0]
    ensures forall k :: k != key ==> Reading(r, k) == Reading(prev, k)
    ensures forall c :: ChoiceText(r, c) == ChoiceText(prev, c)
  {
    WithReading(prev, key, value[0])
  }

  /** A number input reports `Number(e.target.value)`, given here as the
      integer it denotes; the field takes it and every other field keeps its
      value. */
  function HandleInputChange(prev: SensorData, key: NumericKey, number: int): (r: SensorData)
    ensures Reading(r, key) == number
    ensures forall k :: k != key ==> Reading(r, k) == Reading(prev, k)
    ensures forall c :: ChoiceText(r, c) == ChoiceText(prev, c)
  {
    WithReading(prev, key, number)
  }

  const VentilationOptions: seq<string> := ["Good", "Moderate", "Poor"]
  const CameraOptions: seq<string> := ["No visible issues", "Steam near engine", "Blocked air vents"]

  /** The values the select for `key` offers. */
  function Options(key: ChoiceKey): seq<string>
  {
    match key
    case VentilationQuality => VentilationOptions
    case CameraObservations => CameraOptions
  }

  /** A select reports the chosen option's text; the field takes it and
      every other field keeps its value. */
  function HandleSelectChange(prev: SensorData, key: ChoiceKey, value: string): (r: SensorData)
    requires value in Options(key)
    ensures ChoiceText(r, key) == value
    ensures forall c :: c != key ==> ChoiceText(r, c) == ChoiceText(prev, c)
    ensures forall k :: Reading(r, k) == Reading(prev, k)
  {
    match key
    case VentilationQuality => prev.(ventilationQuality := ParseVentilation(value).value)
    case CameraObservations => prev.(cameraObservations := ParseCamera(value).value)
  }

  /** The option lists offer exactly the texts of the record's union types,
      each once. */
  lemma OptionsMatchUnions()
    ensures forall v :: VentilationName(v) in VentilationOptions
    ensures forall s :: s in VentilationOptions ==> ParseVentilation(s).Some?
    ensures forall c :: CameraName(c) in CameraOptions
    ensures forall s :: s in CameraOptions ==> ParseCamera(s).Some?
    ensures forall i, j :: 0 <= i < j < 3 ==>
      VentilationOptions[i] != VentilationOptions[j] && CameraOptions[i] != CameraOptions[j]
  {
  }

  /** The three sliders of the panel. */
  datatype Slider = EngineSlider | CabinSlider | CoolantSlider {

    function Key(): NumericKey
    {
      match this
      case EngineSlider => EngineTemperature
      case CabinSlider => CabinTemperature
      case CoolantSlider => CoolantLevel
    }

    function Min(): int
    {
      match this
      case EngineSlider => 50
      case CabinSlider => 10
      case CoolantSlider => 0
    }

    function Max(): int
    {
      match this
      case EngineSlider => 150
      case CabinSlider => 50
      case CoolantSlider => 100
    }

    function Step(): nat
    {
      match this
      case EngineSlider => 1
      case CabinSlider => 1
      case CoolantSlider => 5
    }

    /** A value the slider can report: within its bounds, on its steps. */
    predicate Admits(v: int)
    {
      Min() <= v <= Max() && (v - Min()) % Step() == 0
    }
  }

  /** Every slider-controlled field holds a value its slider can report. */
  predicate SlidersInRange(s: SensorData)
  {
    forall sl: Slider :: sl.Admits(Reading(s, sl.Key()))
  }

  /** The panel's changes keep the slider-controlled fields in range: a
      slider reports values it admits, and the select and the outside
      temperature input touch no slider-controlled field. */
  lemma ChangesKeepSlidersInRange(prev: SensorData)
    requires SlidersInRange(prev)
    ensures forall sl: Slider, value: seq<int> | |value| > 0 && sl.Admits(value[0]) ::
      SlidersInRange(HandleSliderChange(prev, sl.Key(), value))
    ensures forall number :: SlidersInRange(HandleInputChange(prev, OutsideTemperature, number))
    ensures forall key, value | value in Options(key) :: SlidersInRange(HandleSelectChange(prev, key, value))
  {
  }
}
