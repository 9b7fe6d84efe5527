/** The values the form works with: the parsed inputs and what one metric
    panel shows. */
module Readings {
  import opened Wrappers

  /** The value text of a metric panel. The number formatting itself
      (`toFixed(1)`, template strings) is kept abstract: a label records
      which value it shows and in which unit. */
  datatype Label =
    | Dash                                     // "—", nothing to show
    | Grams(hb: real)                          // "<hb, one decimal> g/dL"
    | Pressure(systolic: int, diastolic: int)  // "<s>/<d> mmHg"
    | Milligrams(sugar: int, fasting: bool)    // "<v> mg/dL (Fasting|Random)"

  /** What one metric panel shows: value text (`text`), badge text, badge style
      class and explanatory note. */
  datatype Display = Display(text: Label, badge: string, cls: string, note: string)

  /** The panel shown when a reading is missing. */
  const Awaiting := Display(Dash, "Awaiting input", "", "")

  /** The five form fields after parsing: hemoglobin (g/dL), systolic and
      diastolic pressure (mmHg), sugar (mg/dL) and the sugar mode text. */
  datatype Inputs = Inputs(
    hb: Option<real>,
    sys: Option<int>,
    dia: Option<int>,
    sugar: Option<real>,
    sugarMode: string)
}
