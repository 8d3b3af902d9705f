/**
 * The icon catalog: the provider's condition code (e.g. "10n") selects one of
 * the widget's condition icons, and every code the table does not list falls
 * back to the clear-sky icon. The image assets themselves are opaque here.
 */
module Icons {

  datatype Icon = Clear | Cloud | Drizzle | Rain | Snow

  /** The fixed code-to-icon table. */
  const IconTable: map<string, Icon> := map[
    "01d" := Clear,
    "01n" := Clear,
    "02d" := Cloud,
    "03d" := Cloud,
    "03n" := Cloud,
    "04d" := Drizzle,
    "04n" := Drizzle,
    "09d" := Rain,
    "09n" := Rain,
    "10d" := Rain,
    "10n" := Rain,
    "13d" := Snow,
    "13n" := Snow
  ]

  /** Table lookup with the clear icon as fallback; defined for every code. */
  function ResolveIcon(code: string): (icon: Icon)
    ensures code in IconTable ==> icon == IconTable[code]
    ensures icon != Clear ==> code in IconTable
  {
    if code in IconTable then IconTable[code] else Clear
  }

  /** Each listed code yields its own table entry. */
  lemma ListedCodes()
    ensures ResolveIcon("01d") == Clear && ResolveIcon("01n") == Clear
    ensures ResolveIcon("02d") == Cloud && ResolveIcon("03d") == Cloud && ResolveIcon("03n") == Cloud
    ensures ResolveIcon("04d") == Drizzle && ResolveIcon("04n") == Drizzle
    ensures ResolveIcon("09d") == Rain && ResolveIcon("09n") == Rain
    ensures ResolveIcon("10d") == Rain && ResolveIcon("10n") == Rain
    ensures ResolveIcon("13d") == Snow && ResolveIcon("13n") == Snow
  {
  }

  /**
   * Which codes lead to which icon, in both directions: every icon other than
   * the clear one is produced by exactly the codes listed for it, and every
   * other code (unlisted ones included) produces the clear icon.
   */
  lemma IconPreimages(code: string)
    ensures ResolveIcon(code) == Cloud <==> code in {"02d", "03d", "03n"}
    ensures ResolveIcon(code) == Drizzle <==> code in {"04d", "04n"}
    ensures ResolveIcon(code) == Rain <==> code in {"09d", "09n", "10d", "10n"}
    ensures ResolveIcon(code) == Snow <==> code in {"13d", "13n"}
    ensures ResolveIcon(code) == Clear <==>
      code !in {"02d", "03d", "03n", "04d", "04n", "09d", "09n", "10d", "10n", "13d", "13n"}
  {
  }

  /**
   * Codes the table does not list resolve to the clear icon: among them the
   * night variant of "few clouds" (its day variant is listed), thunderstorm
   * and mist.
   */
  lemma UnlistedCodes()
    ensures ResolveIcon("02n") == Clear && ResolveIcon("02d") == Cloud
    ensures ResolveIcon("11d") == Clear && ResolveIcon("11n") == Clear
    ensures ResolveIcon("50d") == Clear && ResolveIcon("50n") == Clear
    ensures ResolveIcon("") == Clear
  {
  }
}
