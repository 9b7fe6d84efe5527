/** Blood pressure against the common adult categories. The rules overlap,
    and they are tried in a fixed order: the first one that matches decides. */
module BloodPressure {
  import opened Wrappers
  import opened Readings

  datatype Category = Normal | Elevated | Stage1 | Stage2 | Urgent

  /** Severity order Normal < Elevated < Stage 1 < Stage 2 < Urgent. */
  function Rank(c: Category): nat {
    match c
    case Normal => 0
    case Elevated => 1
    case Stage1 => 2
    case Stage2 => 3
    case Urgent => 4
  }

  /** First-match classification. The contract describes each category
      as a region of the (systolic, diastolic) plane on its own, with no
      reference to the order in which the rules are tried. */
  function CategoryOf(s: int, d: int): (c: Category)
    ensures c == Urgent <==> s >= 180 || d >= 120
    ensures c == Stage2 <==> s < 180 && d < 120 && (s >= 140 || d >= 90)
    ensures c == Stage1 <==> s < 140 && d < 90 && (s >= 130 || d >= 80)
    ensures c == Elevated <==> 120 <= s <= 129 && d < 80
    ensures c == Normal <==> s < 120 && d < 80
  {
    if s >= 180 || d >= 120 then Urgent
    else if s >= 140 || d >= 90 then Stage2
    else if (s >= 130 && s <= 139) || (d >= 80 && d <= 89) then Stage1
    else if s >= 120 && s <= 129 && d < 80 then Elevated
    else Normal
  }

  function Badge(c: Category): string {
    match c
    case Urgent => "Urgent (Seek care)"
    case Stage2 => "High (Stage 2)"
    case Stage1 => "High (Stage 1)"
    case Elevated => "Elevated"
    case Normal => "Normal"
  }

  function Cls(c: Category): string {
    match c
    case Urgent => "high"
    case Stage2 => "high"
    case Stage1 => "warn"
    case Elevated => "warn"
    case Normal => "ok"
  }

  function Note(c: Category): string {
    match c
    case Urgent => "≥180 systolic or ≥120 diastolic."
    case Stage2 => "≥140 systolic or ≥90 diastolic."
    case Stage1 => "130–139 systolic or 80–89 diastolic."
    case Elevated => "120–129 systolic and <80 diastolic."
    case Normal => "<120 and <80."
  }

  /** The pressure panel: awaiting input when either reading is missing;
      otherwise both readings with the badge of the first matching rule. */
  function ClassifyBP(sys: Option<int>, dia: Option<int>): (r: Display)
    ensures r == Awaiting <==> sys.None? || dia.None?
    ensures sys.Some? && dia.Some? ==> r.text == Pressure(sys.value, dia.value)
    ensures sys.Some? && dia.Some? ==>
      var s, d := sys.value, dia.value;
      && (r.badge == "Urgent (Seek care)" <==> s >= 180 || d >= 120)
      && (r.badge == "High (Stage 2)" <==> s < 180 && d < 120 && (s >= 140 || d >= 90))
      && (r.badge == "High (Stage 1)" <==> s < 140 && d < 90 && (s >= 130 || d >= 80))
      && (r.badge == "Elevated" <==> 120 <= s <= 129 && d < 80)
      && (r.badge == "Normal" <==> s < 120 && d < 80)
      && (r.cls == "high" <==> s >= 140 || d >= 90)
      && (r.cls == "warn" <==> s < 140 && d < 90 && (s >= 120 || d >= 80))
      && (r.cls == "ok" <==> s < 120 && d < 80)
    ensures sys.Some? && dia.Some? ==>
      && (r.note == "≥180 systolic or ≥120 diastolic." <==> r.badge == "Urgent (Seek care)")
      && (r.note == "≥140 systolic or ≥90 diastolic." <==> r.badge == "High (Stage 2)")
      && (r.note == "130–139 systolic or 80–89 diastolic." <==> r.badge == "High (Stage 1)")
      && (r.note == "120–129 systolic and <80 diastolic." <==> r.badge == "Elevated")
      && (r.note == "<120 and <80." <==> r.badge == "Normal")
  {
    if sys.None? || dia.None? then Awaiting
    else
      var c := CategoryOf(sys.value, dia.value);
      Display(Pressure(sys.value, dia.value), Badge(c), Cls(c), Note(c))
  }

  /** Raising either reading never moves the result to a less severe
      category. */
  lemma RankMonotone(s: int, d: int, s': int, d': int)
    requires s <= s' && d <= d'
    ensures Rank(CategoryOf(s, d)) <= Rank(CategoryOf(s', d'))
  {
  }

  /** A crisis-level reading on one side decides the result whatever the
      other reading is. */
  lemma CrisisOverrides(s: int, d: int)
    requires s >= 180 || d >= 120
    ensures ClassifyBP(Some(s), Some(d)).badge == "Urgent (Seek care)"
    ensures ClassifyBP(Some(s), Some(d)).cls == "high"
  {
  }

  /** Readings that satisfy several rules get the first one's category. */
  lemma PriorityExamples()
    ensures CategoryOf(180, 70) == Urgent
    ensures CategoryOf(135, 95) == Stage2
    ensures CategoryOf(129, 85) == Stage1
    ensures CategoryOf(125, 78) == Elevated
    ensures CategoryOf(110, 70) == Normal
  {
  }
}
