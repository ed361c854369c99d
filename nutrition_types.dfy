/** The nutrient record shared by the lookup, the analysis pipeline, the
    history store and the essential-nutrient filter. */
module NutritionTypes {
  import opened Wrappers

  /** A nutrient amount as it arrives from JSON: `string | number`, or
      missing (`undefined`) or `null`. Numbers are kept exact. */
  datatype Amount = Undefined | Null | Number(value: real) | Text(text: string)

  /** `{name, amount, unit}`; `None` stands for a name or unit that the
      fallback chain left `undefined`. */
  datatype Nutrient = Nutrient(name: Option<string>, amount: Amount, unit: Option<string>)
}
