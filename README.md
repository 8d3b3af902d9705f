# Weather widget model

A Dafny model of the single React component of a weather-lookup widget
(`src/components/Weather.jsx`). The user enters a city. The widget asks the
weather provider for current conditions and shows the temperature, humidity,
wind speed, place name and a condition icon. A button switches the
temperature between Celsius and Fahrenheit.

The model has five modules:

- `Wrappers`: `Option`, standing for a value that may be `null`/`undefined`.
- `Numerals`: the decimal text a template literal gives an integral number (`IntToString`).
  `ParseInt` is its inverse and is used to state what the shown text means.
- `Icons`: the fixed table from the provider's condition codes to five icons
  (clear, cloud, drizzle, rain, snow). Any code the table does not list gets the clear icon.
- `Units`: the unit flag (`"C"` or `"F"`), the toggle, and `Math.round(c * 9 / 5 + 32)` as
  integer arithmetic, `(18 * c + 325) / 10`.
- `Weather`: three datatypes, the display strings, and the `Widget` class.
  - `Snapshot` is the shown record. It is either absent (`None`) or complete, and is replaced as a whole.
  - `Payload` holds the response fields that are read.
  - `FetchOutcome` says how a request ended: not ok, thrown, or ok.
  - The `Widget` class holds the component's two state hooks as fields. Its methods are
    `Search` and `ToggleUnit`.
  - `Mount` is the automatic search for "Vancouver" when the component mounts.

The network request is a parameter. `Search` takes the city and the request's
`FetchOutcome`, and looks at the outcome only when the city passes the `!city`
guard. A missing city and `""` are refused. A blank city such as `" "` is searched.
The error policy is asymmetric, as in the code:

- A status that is not ok, with a JSON body, keeps the previous snapshot. The notice is the
  provider's message, or "Failed to fetch weather data." when that message is absent or empty.
  The body is parsed before the status is tested. So a failed response whose body does not
  parse, or is `null`, throws instead, and the snapshot is cleared.
- A thrown error clears the snapshot and shows no notice. It is only logged.

## Model

| member | source | states |
|---|---|---|
| `Weather.Widget.constructor` | src/components/Weather.jsx:14-15 | a new widget has no snapshot and the unit "C" |
| `Weather.Widget.Search` | src/components/Weather.jsx:33-63 | a missing or empty city gives the notice "Please enter a city." and changes nothing, and the outcome is not consulted; a not-ok status with a JSON body keeps the snapshot and gives the provider's non-empty message or the fallback text; a thrown error sets the snapshot to absent, whatever it was, with no notice; an ok response replaces the snapshot with the one built from the payload, with no notice; the unit never changes, so a "C" or "F" flag stays valid |
| `Weather.Widget.ToggleUnit` | src/components/Weather.jsx:65-67 | the unit becomes its toggled value, which is always "C" or "F"; the snapshot is untouched; a unit of "C" or "F" changes |
| `Weather.Mount` | src/components/Weather.jsx:77-79 | after mounting and the automatic search for the default city, the unit is "C"; a snapshot is present exactly when that search got an ok response; the only possible notice is the provider's failure message |
| `Weather.SnapshotOf` | src/components/Weather.jsx:49-58 | humidity, wind speed and location are copied from the payload; the icon is the catalog's icon for the payload's code; the temperature is the integer t with t <= kelvin - 273.15 < t + 1 |
| `Weather.KelvinExample` | src/components/Weather.jsx:50-55 | 300.15 K is stored as 27, shown as "27°C", and shown as "81°F" after one toggle |
| `Weather.DisplayTemperature` | src/components/Weather.jsx:69-75 | the temperature text is empty exactly when there is no snapshot |
| `Weather.DisplayReadsBack` | src/components/Weather.jsx:69-75 | with a snapshot, the text ends in "°C" when the unit is "C" and in "°F" for any other flag; the text before the suffix is exactly the canonical decimal text of the Celsius value or of its rounded Fahrenheit value, and reads back as that value |
| `Weather.CityGuard` | src/components/Weather.jsx:34-37 | for every string: a missing city and "" are refused, any non-empty string passes, and in particular a city made only of blanks is searched |
| `Weather.FailureNotice` | src/components/Weather.jsx:45 | the notice is never empty: it is the provider's message when that is present and non-empty, and otherwise "Failed to fetch weather data." |
| `Weather.ToggleLabel` | src/components/Weather.jsx:97 | the caption is "Show in °" followed by the unit the toggle would switch to |
| `Icons.ResolveIcon` | src/components/Weather.jsx:17-31 | a listed code gives its table entry, and any icon other than the clear one comes only from a listed code |
| `Weather.DisplayToggleTwice` | src/components/Weather.jsx:65-75 | toggling twice gives the same temperature text back, for any snapshot and any flag |
| `Weather.ToggleLabelNamesOtherUnit` | src/components/Weather.jsx:65-97 | the toggle button names a unit other than the one shown, and after one toggle the shown temperature is in the unit the button named |
| `Units.Toggled` | src/components/Weather.jsx:65-67 | the toggled flag is always "C" or "F", and it is "F" exactly when the flag was "C" |
| `Units.ToggleTwice` | src/components/Weather.jsx:65-67 | for a flag of "C" or "F", one toggle changes it and two toggles restore it |
| `Units.FahrenheitOf` | src/components/Weather.jsx:74 | the Fahrenheit integer is strictly within 1/2 of c * 9 / 5 + 32, which makes it the value Math.round gives |
| `Units.RoundingIsExact` | src/components/Weather.jsx:74 | (18c + 325) / 10 is strictly within 1/2 of c * 9 / 5 + 32, so no value of c is a tie for Math.round |
| `Units.FahrenheitExamples` | src/components/Weather.jsx:74 | 27 °C gives 81 °F, -1 °C gives 30 °F, -40 °C gives -40 °F, 0 °C gives 32 °F, 100 °C gives 212 °F |
| `Icons.ListedCodes` | src/components/Weather.jsx:17-31 | each of the 13 listed codes yields its table entry |
| `Icons.IconPreimages` | src/components/Weather.jsx:17-31 | both directions: cloud, drizzle, rain and snow each come from exactly their listed codes; every other code, listed or not, gives the clear icon |
| `Icons.UnlistedCodes` | src/components/Weather.jsx:49 | unlisted codes fall back to the clear icon, without failing: "02n" (while "02d" is cloud), "11d", "11n", "50d", "50n" and "" |
| `Numerals.IntToString` | src/components/Weather.jsx:73-74 | the text of an integer is non-empty, starts with "-" exactly when the integer is negative, has only decimal digits after that sign, has no leading zero for a non-zero integer, and is exactly "0" for 0 |
| `Numerals.NatDigits` | src/components/Weather.jsx:73-74 | the digits of a natural number are at least one decimal digit, with no leading zero for a positive number, and exactly "0" for 0 |
| `Numerals.NatDigitsValue` | src/components/Weather.jsx:73-74 | the digit string of n denotes n |
| `Numerals.ParseIntToString` | src/components/Weather.jsx:73-74 | the text of any integer reads back as that integer |
| `Numerals.IntToStringInjective` | src/components/Weather.jsx:73-74 | distinct integers are shown as distinct texts |

## Left out

- The network request is left out. This covers URL construction, the API credential taken from the
  build environment, `fetch` and `response.json()`. `Search` receives how the request ended as a
  `FetchOutcome` value instead.
- `alert` and `console.error` are left out. The user notice is the value `Search` returns. The
  logged diagnostic of a thrown error is not modelled.
- JSX rendering, the input element and its ref are left out. Reading the input's value is the
  `city` argument of `Search`. The `useEffect` hook is reduced to `Mount`, one call of `Search`
  with the default city.
- The image imports are left out. Icons are the values of an enumeration.
- Concurrent searches are left out. Each search is one atomic step, so responses that arrive out
  of order, where the last one to finish wins, are not modelled.
- Floating point is left out. Kelvin and wind speed are exact `real` values. IEEE-754 rounding
  in `temp - 273.15` and in `c * 9 / 5 + 32` is not modelled.
- Payload field types are fixed. Fields that are missing but do not throw (for example no
  `humidity`) would be copied as `undefined`. Such payloads are not modelled. A missing icon code
  would be looked up under the key "undefined", which falls back to the clear icon like any unlisted code.
- Icons.ResolveIcon: the lookup is a plain map. A JavaScript object would also answer
  inherited property names such as "toString". The provider never sends these as codes.
- Numerals.IntToString: the decimal text only. JavaScript switches to exponent notation at
  magnitudes of 10^21 and above, far outside any temperature.
- A non-string provider `message` is left out. A truthy number would be shown as its own text.
