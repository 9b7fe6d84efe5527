/** Blood sugar (mg/dL), rounded to a whole number and then classified
    against a fasting table or a random (post-meal) table. */
module BloodSugar {
  import opened Wrappers
  import opened Readings

  datatype Category = Low | Normal | Borderline | High

  /** Order in which the tables list the categories. */
  function Rank(c: Category): nat {
    match c
    case Low => 0
    case Normal => 1
    case Borderline => 2
    case High => 3
  }

  /** JavaScript `Math.round` on an exact real: the nearest integer, with
      halves going up (towards +∞). */
  function Round(x: real): (n: int)
    ensures n as real - 0.5 <= x < n as real + 0.5
  {
    (x + 0.5).Floor
  }

  /** Only the exact mode text "fasting" selects the fasting table; every
      other text selects the random table. */
  predicate IsFasting(mode: string) {
    mode == "fasting"
  }

  /** The category of a rounded reading under the chosen table. */
  function CategoryOf(v: int, fasting: bool): (c: Category)
    ensures fasting ==>
      && (c == Low <==> v < 70)
      && (c == Normal <==> 70 <= v <= 99)
      && (c == Borderline <==> 100 <= v <= 125)
      && (c == High <==> 126 <= v)
    ensures !fasting ==>
      && (c == Low <==> v < 70)
      && (c == Normal <==> 70 <= v <= 139)
      && (c == Borderline <==> 140 <= v <= 199)
      && (c == High <==> 200 <= v)
  {
    if fasting then
      if v < 70 then Low
      else if v <= 99 then Normal
      else if v <= 125 then Borderline
      else High
    else
      if v < 70 then Low
      else if v < 140 then Normal
      else if v <= 199 then Borderline
      else High
  }

  function Badge(c: Category): string {
    match c
    case Low => "Low"
    case Normal => "Normal"
    case Borderline => "Borderline"
    case High => "High"
  }

  function Cls(c: Category): string {
    match c
    case Low => "low"
    case Normal => "ok"
    case Borderline => "warn"
    case High => "high"
  }

  function Note(c: Category, fasting: bool): string {
    match c
    case Low => if fasting then "Fasting <70 may indicate hypoglycemia." else "Random <70 may indicate hypoglycemia."
    case Normal => if fasting then "70–99." else "<140."
    case Borderline => if fasting then "Prediabetes range (100–125)." else "Prediabetes range (140–199)."
    case High => if fasting then "Diabetes range (≥126)." else "Diabetes range (≥200)."
  }

  /** The sugar panel. The thresholds apply to the rounded value, so on
      the raw reading each boundary sits half a unit lower: a fasting 99.4
      is normal and 99.5 is borderline. */
  function ClassifySugar(val: Option<real>, mode: string): (r: Display)
    ensures r == Awaiting <==> val.None?
    ensures val.Some? ==> r.text == Milligrams(Round(val.value), IsFasting(mode))
    ensures val.Some? && IsFasting(mode) ==>
      var x := val.value;
      && (r.badge == "Low" <==> x < 69.5)
      && (r.badge == "Normal" <==> 69.5 <= x < 99.5)
      && (r.badge == "Borderline" <==> 99.5 <= x < 125.5)
      && (r.badge == "High" <==> 125.5 <= x)
    ensures val.Some? && !IsFasting(mode) ==>
      var x := val.value;
      && (r.badge == "Low" <==> x < 69.5)
      && (r.badge == "Normal" <==> 69.5 <= x < 139.5)
      && (r.badge == "Borderline" <==> 139.5 <= x < 199.5)
      && (r.badge == "High" <==> 199.5 <= x)
    ensures val.Some? ==>
      && (r.cls == "low" <==> r.badge == "Low")
      && (r.cls == "ok" <==> r.badge == "Normal")
      && (r.cls == "warn" <==> r.badge == "Borderline")
      && (r.cls == "high" <==> r.badge == "High")
    ensures val.Some? && IsFasting(mode) ==>
      && (r.note == "Fasting <70 may indicate hypoglycemia." <==> r.badge == "Low")
      && (r.note == "70–99." <==> r.badge == "Normal")
      && (r.note == "Prediabetes range (100–125)." <==> r.badge == "Borderline")
      && (r.note == "Diabetes range (≥126)." <==> r.badge == "High")
    ensures val.Some? && !IsFasting(mode) ==>
      && (r.note == "Random <70 may indicate hypoglycemia." <==> r.badge == "Low")
      && (r.note == "<140." <==> r.badge == "Normal")
      && (r.note == "Prediabetes range (140–199)." <==> r.badge == "Borderline")
      && (r.note == "Diabetes range (≥200)." <==> r.badge == "High")
  {
    match val
    case None => Awaiting
    case Some(x) =>
      var v := Round(x);
      var fasting := IsFasting(mode);
      var c := CategoryOf(v, fasting);
      Display(Milligrams(v, fasting), Badge(c), Cls(c), Note(c, fasting))
  }

  /** Rounding leaves whole numbers alone. */
  lemma RoundWhole(n: int)
    ensures Round(n as real) == n
  {
  }

  /** For the same rounded value the fasting table's category never comes
      earlier in the table order (Low, Normal, Borderline, High) than the
      random table's. */
  lemma FastingAtLeastAsSevere(v: int)
    ensures Rank(CategoryOf(v, false)) <= Rank(CategoryOf(v, true))
  {
  }

  /** Within one table a higher value never gets a category earlier in the
      table order (Low, Normal, Borderline, High). */
  lemma RankMonotone(v: int, v': int, fasting: bool)
    requires v <= v'
    ensures Rank(CategoryOf(v, fasting)) <= Rank(CategoryOf(v', fasting))
  {
  }

  /** Boundary readings on either side of the rounding step. */
  lemma BoundaryExamples()
    ensures ClassifySugar(Some(99.4), "fasting").badge == "Normal"
    ensures ClassifySugar(Some(99.5), "fasting").badge == "Borderline"
    ensures ClassifySugar(Some(126.0), "fasting").badge == "High"
    ensures ClassifySugar(Some(139.0), "random").badge == "Normal"
    ensures ClassifySugar(Some(140.0), "random").badge == "Borderline"
    ensures ClassifySugar(Some(200.0), "Fasting").badge == "High"
  {
  }
}
