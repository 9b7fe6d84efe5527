/** Hemoglobin against the general adult reference range 12–16 g/dL. */
module Hemoglobin {
  import opened Wrappers
  import opened Readings

  datatype Level = Low | Normal | High

  /** The level of a present reading: below 12 is low, above 16 is high,
      and the closed range [12, 16] is normal. */
  function LevelOf(hb: real): (l: Level)
    ensures l == Low <==> hb < 12.0
    ensures l == Normal <==> 12.0 <= hb <= 16.0
    ensures l == High <==> 16.0 < hb
  {
    if hb < 12.0 then Low
    else if hb > 16.0 then High
    else Normal
  }

  function Badge(l: Level): string {
    match l
    case Low => "Low"
    case Normal => "Normal"
    case High => "High"
  }

  function Cls(l: Level): string {
    match l
    case Low => "low"
    case Normal => "ok"
    case High => "high"
  }

  function Note(l: Level): string {
    match l
    case Low => "Below general adult reference (12–16)."
    case Normal => "Within general adult reference (12–16)."
    case High => "Above general adult reference (12–16)."
  }

  /** The hemoglobin panel: awaiting input exactly when the reading is
      missing; otherwise the value with a badge decided by the range. */
  function ClassifyHB(hb: Option<real>): (r: Display)
    ensures r == Awaiting <==> hb.None?
    ensures hb.Some? ==> r.text == Grams(hb.value)
    ensures hb.Some? ==> (r.badge == "Low" <==> hb.value < 12.0)
    ensures hb.Some? ==> (r.badge == "Normal" <==> 12.0 <= hb.value <= 16.0)
    ensures hb.Some? ==> (r.badge == "High" <==> 16.0 < hb.value)
    ensures hb.Some? ==>
      && (r.cls == "low" <==> r.badge == "Low")
      && (r.cls == "ok" <==> r.badge == "Normal")
      && (r.cls == "high" <==> r.badge == "High")
    ensures hb.Some? ==>
      && (r.note == "Below general adult reference (12–16)." <==> r.badge == "Low")
      && (r.note == "Within general adult reference (12–16)." <==> r.badge == "Normal")
      && (r.note == "Above general adult reference (12–16)." <==> r.badge == "High")
  {
    match hb
    case None => Awaiting
    case Some(v) =>
      var l := LevelOf(v);
      Display(Grams(v), Badge(l), Cls(l), Note(l))
  }

  /** Both ends of the reference range are normal. */
  lemma BoundariesAreNormal()
    ensures ClassifyHB(Some(12.0)).badge == "Normal"
    ensures ClassifyHB(Some(16.0)).badge == "Normal"
    ensures ClassifyHB(Some(11.9)).badge == "Low"
    ensures ClassifyHB(Some(16.1)).badge == "High"
  {
  }
}
