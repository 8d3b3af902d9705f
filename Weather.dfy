/**
 * The weather widget: a snapshot of current conditions that is either absent
 * or complete, a display-unit flag, the search step that replaces, keeps or
 * clears the snapshot depending on how the request ended, the unit toggle,
 * and the strings rendered from that state.
 *
 * The request itself (URL, credential, fetch, JSON decoding) is replaced by a
 * FetchOutcome value that the caller supplies.
 */
module Weather {
  import opened Wrappers
  import opened Numerals
  import opened Icons
  import opened Units

  /** What the widget shows; replaced as a whole, never updated field by field. */
  datatype Snapshot = Snapshot(
    humidity: int,       // percent, as sent by the provider
    windSpeed: real,     // m/s, as sent by the provider
    temperatureC: int,   // whole degrees Celsius, rounded down
    location: string,    // the provider's name for the place
    icon: Icon)

  /** The fields of a successful response that the widget reads. */
  datatype Payload = Payload(
    iconCode: string,    // weather[0].icon
    kelvin: real,        // main.temp
    humidity: int,       // main.humidity
    windSpeed: real,     // wind.speed
    name: string)        // name

  /** How a request for a non-empty city ended. */
  datatype FetchOutcome =
    | NotOk(message: Option<string>)   // the status was not ok and the body parsed as a JSON object; its `message`, if any
    | Threw                            // the request was rejected, the body was not JSON, or a field access failed
    | Ok(payload: Payload)             // the response was ok and carried every field read

  const CityPrompt: string := "Please enter a city."
  const FetchFailed: string := "Failed to fetch weather data."
  const DefaultCity: string := "Vancouver"

  /** The `!city` guard: a missing city or the empty string is refused; any other string, blank or not, goes on. */
  predicate CityGiven(city: Option<string>) {
    city.Some? && city.value != ""
  }

  /**
   * The guard over every input: a missing city and the empty string are
   * refused, and every other string is searched, blank ones included.
   */
  lemma CityGuard(s: string)
    ensures !CityGiven(None) && !CityGiven(Some(""))
    ensures CityGiven(Some(s)) <==> 0 < |s|
    ensures 0 < |s| && (forall i :: 0 <= i < |s| ==> s[i] == ' ') ==> CityGiven(Some(s))
  {
  }

  /** `data.message || "Failed to fetch weather data."`: an empty message is falsy too. */
  function FailureNotice(message: Option<string>): (notice: string)
    ensures notice != ""
    ensures message.Some? && message.value != "" ==> notice == message.value
    ensures message.None? || message.value == "" ==> notice == FetchFailed
  {
    if message.Some? && message.value != "" then message.value else FetchFailed
  }

  /** The snapshot built from an ok response. */
  function SnapshotOf(p: Payload): (s: Snapshot)
    ensures s.humidity == p.humidity && s.windSpeed == p.windSpeed && s.location == p.name
    ensures s.icon == ResolveIcon(p.iconCode)
    ensures (s.temperatureC as real) <= p.kelvin - 273.15 < (s.temperatureC as real) + 1.0
  {
    Snapshot(p.humidity, p.windSpeed, (p.kelvin - 273.15).Floor, p.name, ResolveIcon(p.iconCode))
  }

  /** The temperature line: empty without a snapshot, otherwise a number and its unit. */
  function DisplayTemperature(data: Option<Snapshot>, unit: string): (r: string)
    ensures r == "" <==> data.None?
  {
    if data.None? then ""
    else if unit == Celsius then IntToString(data.value.temperatureC) + "°C"
    else IntToString(FahrenheitOf(data.value.temperatureC)) + "°F"
  }

  /** The toggle button's caption. */
  function ToggleLabel(unit: string): (caption: string)
    ensures caption == "Show in °" + Toggled(unit)
  {
    "Show in °" + (if unit == Celsius then "F" else "C")
  }

  /**
   * What a shown temperature means: it ends in "°" and the letter of the unit
   * in force ("F" for any flag other than "C"), and the text before that reads
   * back as the stored Celsius value, or as its rounded Fahrenheit value.
   */
  lemma DisplayReadsBack(s: Snapshot, unit: string)
    ensures var r := DisplayTemperature(Some(s), unit);
      && 3 <= |r|
      && r[|r| - 2] == '°'
      && r[|r| - 1] == (if unit == Celsius then 'C' else 'F')
      && r[..|r| - 2] == IntToString(if unit == Celsius then s.temperatureC else FahrenheitOf(s.temperatureC))
      && ParseInt(r[..|r| - 2]) == Some(if unit == Celsius then s.temperatureC else FahrenheitOf(s.temperatureC))
  {
    var r := DisplayTemperature(Some(s), unit);
    var t := if unit == Celsius then s.temperatureC else FahrenheitOf(s.temperatureC);
    assert r[..|r| - 2] == IntToString(t);
    ParseIntToString(t);
  }

  /** Toggling twice shows the same string again, whatever the flag held. */
  lemma DisplayToggleTwice(data: Option<Snapshot>, unit: string)
    ensures DisplayTemperature(data, Toggled(Toggled(unit))) == DisplayTemperature(data, unit)
  {
  }

  /**
   * The button names the unit not currently shown, and pressing it shows that
   * unit.
   */
  lemma ToggleLabelNamesOtherUnit(s: Snapshot, unit: string)
    ensures var caption := ToggleLabel(unit);
      var shown := DisplayTemperature(Some(s), unit);
      var next := DisplayTemperature(Some(s), Toggled(unit));
      && caption[|caption| - 1] != shown[|shown| - 1]
      && caption[|caption| - 1] == next[|next| - 1]
  {
  }

  /** The component's state, as held by its two state hooks. */
  class Widget {
    var weatherData: Option<Snapshot>
    var unit: string

    ghost predicate Valid()
      reads this
    {
      IsUnit(unit)
    }

    /** Mounting starts with no snapshot and Celsius. */
    constructor ()
      ensures Valid()
      ensures weatherData == None && unit == Celsius
    {
      weatherData := None;
      unit := Celsius;
    }

    /**
     * One search, run to completion. Returns the notice shown to the user, if
     * any. The outcome is not consulted when the city is refused. A status
     * that is not ok, with a body that parses as JSON, keeps the old snapshot,
     * while a thrown error clears it. The body is parsed before the status is
     * tested, so a failed response whose body does not parse (or is `null`)
     * arrives as Threw.
     */
    method Search(city: Option<string>, outcome: FetchOutcome) returns (notice: Option<string>)
      requires Valid()
      modifies this
      ensures Valid() && unit == old(unit)
      ensures !CityGiven(city) ==> weatherData == old(weatherData) && notice == Some(CityPrompt)
      ensures CityGiven(city) && outcome.NotOk? ==>
        weatherData == old(weatherData) && notice == Some(FailureNotice(outcome.message))
      ensures CityGiven(city) && outcome.Threw? ==> weatherData == None && notice == None
      ensures CityGiven(city) && outcome.Ok? ==>
        weatherData == Some(SnapshotOf(outcome.payload)) && notice == None
    {
      if !CityGiven(city) {
        notice := Some(CityPrompt);
        return;
      }
      match outcome
      case NotOk(message) =>
        notice := Some(FailureNotice(message));
      case Threw =>
        weatherData := None;
        notice := None;
      case Ok(payload) =>
        weatherData := Some(SnapshotOf(payload));
        notice := None;
    }

    /** Flips the unit flag; the stored snapshot is untouched. */
    method ToggleUnit()
      modifies this
      ensures unit == Toggled(old(unit))
      ensures weatherData == old(weatherData)
      ensures Valid()
      ensures old(Valid()) ==> unit != old(unit)
    {
      unit := Toggled(unit);
    }
  }

  /**
   * A freshly mounted widget after its one automatic search for the default
   * city: the unit is Celsius, and a snapshot is present exactly when that
   * search got an ok response.
   */
  method Mount(outcome: FetchOutcome) returns (w: Widget, notice: Option<string>)
    ensures fresh(w) && w.Valid() && w.unit == Celsius
    ensures w.weatherData == (if outcome.Ok? then Some(SnapshotOf(outcome.payload)) else None)
    ensures notice == (if outcome.NotOk? then Some(FailureNotice(outcome.message)) else None)
  {
    w := new Widget();
    notice := w.Search(Some(DefaultCity), outcome);
  }

  /** 300.15 K is shown as "27°C", and as "81°F" after one toggle. */
  lemma KelvinExample(code: string, humidity: int, windSpeed: real, name: string)
    ensures var s := SnapshotOf(Payload(code, 300.15, humidity, windSpeed, name));
      && s.temperatureC == 27
      && DisplayTemperature(Some(s), Celsius) == "27°C"
      && DisplayTemperature(Some(s), Toggled(Celsius)) == "81°F"
  {
  }
}
