/** The JavaScript values that an `npm ls --json --long` record can hold,
    as far as the BOM builder inspects them, and the two lookups it does on
    them: `a ?? b` and `x === true`. */
module JsValues {
  import opened Wrappers

  /** A field value. `Other` stands for numbers, arrays and objects: none of
      them is nullish, none is `=== true` and none is a string. */
  datatype JsValue = Undefined | Null | Bool(b: bool) | Str(s: string) | Other

  /** One package record of the listing; a missing key reads as `undefined`. */
  type Record = map<string, JsValue>

  function Get(data: Record, key: string): JsValue {
    if key in data then data[key] else Undefined
  }

  predicate IsNullish(v: JsValue) {
    v == Undefined || v == Null
  }

  /** `a ?? b`: the first of the two that is neither `null` nor `undefined`. */
  function Coalesce(a: JsValue, b: JsValue): JsValue {
    if IsNullish(a) then b else a
  }

  /** `v === true` */
  predicate IsStrictTrue(v: JsValue) {
    v == Bool(true)
  }

  /** A legacy field read as `(data[current] ?? data[legacy])`: npm-ls v6
      prefixes some fields with `_`. */
  function LegacyField(data: Record, current: string, legacy: string): JsValue {
    Coalesce(Get(data, current), Get(data, legacy))
  }

  /** A legacy flag read as `(data[current] ?? data[legacy]) === true`. */
  predicate LegacyFlag(data: Record, current: string, legacy: string) {
    IsStrictTrue(LegacyField(data, current, legacy))
  }

  /** The flag is set exactly when the current name holds `true`, or the
      current name is absent or `null` and the legacy name holds `true`: a
      present non-nullish current value (`false`, a string, ...) hides the
      legacy one. */
  lemma LegacyFlagCases(data: Record, current: string, legacy: string)
    ensures LegacyFlag(data, current, legacy) <==>
              (Get(data, current) == Bool(true)
               || (IsNullish(Get(data, current)) && Get(data, legacy) == Bool(true)))
  {
  }

  /** `dev: false, _development: true` is not a development record, and a
      value that is not the boolean `true` never sets the flag. */
  lemma LegacyFlagFalseHidesLegacy(data: Record, current: string, legacy: string)
    requires Get(data, current) == Bool(false) || Get(data, current).Str? || Get(data, current) == Other
    ensures !LegacyFlag(data, current, legacy)
  {
  }
}
