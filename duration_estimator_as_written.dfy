/**
  getTargetWords exactly as server.js:78-85 writes its table lookup.

  `WPS_BY_LANG[language]` reads a property of a plain object literal, so besides
  the table's own entries it also finds every member the object inherits from
  Object.prototype. Each of those is a function or an object: truthy, so
  `|| 2.5` keeps it, and not a number, so `d * wps * 1.05` is NaN, and NaN passes
  through Math.round, Math.min and Math.max. The promised range [60, 450] then
  fails. DurationEstimator.TargetWords is the corrected definition (own entries
  only), and the rest of the model uses it.
*/
module DurationEstimatorAsWritten {
  import opened DurationEstimator

  /** The names a plain object inherits from Object.prototype. */
  const InheritedMembers: set<string> := {
    "constructor", "__proto__", "__defineGetter__", "__defineSetter__",
    "__lookupGetter__", "__lookupSetter__", "hasOwnProperty", "isPrototypeOf",
    "propertyIsEnumerable", "toLocaleString", "toString", "valueOf"
  }

  /** What reading a property of the rate table can give. */
  datatype Property = Number(tenths: nat) | Inherited | Undefined

  /** A JavaScript number whose value, when finite, is an integer. */
  datatype JsNumber = Finite(value: int) | NaN

  /** WPS_BY_LANG[language]: an own entry, else an inherited member, else undefined. */
  function ReadProperty(language: string): (p: Property)
    ensures language in RateTable ==> p == Number(RateTable[language])
    ensures p.Inherited? <==> language !in RateTable && language in InheritedMembers
    ensures p.Undefined? <==> language !in RateTable && language !in InheritedMembers
  {
    if language in RateTable then Number(RateTable[language])
    else if language in InheritedMembers then Inherited
    else Undefined
  }

  /** `WPS_BY_LANG[language] || 2.5`: a falsy read (undefined, 0) becomes the default. */
  function RateOrDefault(p: Property): Property {
    match p
    case Undefined => Number(DefaultRate)
    case Number(0) => Number(DefaultRate)
    case _ => p
  }

  /** Math.min on numbers whose finite values are integers: NaN if either is NaN. */
  function JsMin(a: JsNumber, b: JsNumber): JsNumber {
    if a.NaN? || b.NaN? then NaN else Finite(if a.value <= b.value then a.value else b.value)
  }

  /** Math.max, likewise. */
  function JsMax(a: JsNumber, b: JsNumber): JsNumber {
    if a.NaN? || b.NaN? then NaN else Finite(if a.value >= b.value then a.value else b.value)
  }

  /** getTargetWords as written: the rounded product is NaN unless the rate is a number. */
  function TargetWordsAsWritten(d: int, language: string): (t: JsNumber)
    ensures t.NaN? <==> language !in RateTable && language in InheritedMembers
    ensures t.Finite? ==> t.value == TargetWords(d, language)
  {
    var words := match RateOrDefault(ReadProperty(language))
      case Number(w) => Finite(RoundedWords(d, w))
      case _ => NaN;
    JsMax(Finite(MinTarget), JsMin(words, Finite(MaxTarget)))
  }

  /** The input that shows it: a request whose language is "toString" gets a NaN
      budget, outside [60, 450], for every duration. */
  lemma ToStringLanguageGivesNaN(d: int)
    ensures TargetWordsAsWritten(d, "toString") == NaN
  {
  }

  /** Outside the inherited names the code as written and the corrected
      definition agree. */
  lemma AsWrittenAgreesOnOwnNames(d: int, language: string)
    requires language in RateTable || language !in InheritedMembers
    ensures TargetWordsAsWritten(d, language) == Finite(TargetWords(d, language))
  {
  }
}
