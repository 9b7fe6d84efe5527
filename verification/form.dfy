/** The submit and clear handlers as steps on an abstract page: the saved
    snapshot (the browser store is reduced to an optional value), the three
    metric panels and the error text. */
module Form {
  import opened Wrappers
  import opened Readings
  import Hemoglobin
  import BloodPressure
  import BloodSugar
  import Validation

  datatype Panels = Panels(hb: Display, bp: Display, sugar: Display)

  datatype Page = Page(saved: Option<Inputs>, panels: Panels, errorText: string)

  datatype Action = Submit(data: Inputs) | Clear

  /** Total length of all parts. */
  function TotalLength(parts: seq<string>): nat {
    if parts == [] then 0 else |parts[0]| + TotalLength(parts[1..])
  }

  /** Where part `k` starts in the joined text: after the `k` earlier parts
      and `k` separators. */
  function Offset(parts: seq<string>, sep: string, k: nat): nat
    requires k <= |parts|
  {
    TotalLength(parts[..k]) + k * |sep|
  }

  /** Part `k` of `parts` stands at its offset in `s`. */
  ghost predicate PartAt(parts: seq<string>, sep: string, s: string, k: nat)
    requires k < |parts|
  {
    Offset(parts, sep, k) + |parts[k]| <= |s| &&
    s[Offset(parts, sep, k)..Offset(parts, sep, k) + |parts[k]|] == parts[k]
  }

  /** The separator follows part `k` in `s`. */
  ghost predicate SepAfter(parts: seq<string>, sep: string, s: string, k: nat)
    requires k < |parts|
  {
    Offset(parts, sep, k) + |parts[k]| + |sep| <= |s| &&
    s[Offset(parts, sep, k) + |parts[k]|..Offset(parts, sep, k) + |parts[k]| + |sep|] == sep
  }

  /** `s` is `parts` joined with `sep`: it has the joined length, every part
      stands at its offset, and a separator follows every part but the
      last. */
  ghost predicate Joined(parts: seq<string>, sep: string, s: string) {
    && |s| == TotalLength(parts) + (if parts == [] then 0 else (|parts| - 1) * |sep|)
    && (forall k :: 0 <= k < |parts| ==> PartAt(parts, sep, s, k))
    && (forall k :: 0 <= k < |parts| - 1 ==> SepAfter(parts, sep, s, k))
  }

  /** Offsets in `parts` are those in its tail, shifted by the first part
      and one separator. */
  lemma OffsetCons(parts: seq<string>, sep: string, k: nat)
    requires 1 <= k <= |parts|
    ensures Offset(parts, sep, k) == |parts[0]| + |sep| + Offset(parts[1..], sep, k - 1)
  {
    assert parts[..k][1..] == parts[1..][..k - 1];
    assert k * |sep| == |sep| + (k - 1) * |sep|;
  }

  /** A part placed in the joined tail stays in place behind the head. */
  lemma PartAtCons(parts: seq<string>, sep: string, t: string, k: nat)
    requires 2 <= |parts| && k < |parts|
    requires k > 0 ==> PartAt(parts[1..], sep, t, k - 1)
    ensures PartAt(parts, sep, parts[0] + sep + t, k)
  {
    var a := parts[0] + sep;
    if k == 0 {
      assert parts[..0] == [];
    } else {
      OffsetCons(parts, sep, k);
      var o, n := Offset(parts[1..], sep, k - 1), |parts[k]|;
      assert parts[1..][k - 1] == parts[k];
      assert (a + t)[|a| + o..|a| + o + n] == t[o..o + n];
    }
  }

  /** A separator placed in the joined tail stays in place behind the head. */
  lemma SepAfterCons(parts: seq<string>, sep: string, t: string, k: nat)
    requires 2 <= |parts| && k < |parts| - 1
    requires k > 0 ==> SepAfter(parts[1..], sep, t, k - 1)
    ensures SepAfter(parts, sep, parts[0] + sep + t, k)
  {
    var a := parts[0] + sep;
    if k == 0 {
      assert parts[..0] == [];
    } else {
      OffsetCons(parts, sep, k);
      var o := Offset(parts[1..], sep, k - 1) + |parts[k]|;
      assert parts[1..][k - 1] == parts[k];
      assert (a + t)[|a| + o..|a| + o + |sep|] == t[o..o + |sep|];
    }
  }

  /** Putting a part and a separator in front of a joined tail joins the
      whole sequence. */
  lemma {:induction false} JoinedCons(parts: seq<string>, sep: string, t: string)
    requires |parts| >= 2
    requires Joined(parts[1..], sep, t)
    ensures Joined(parts, sep, parts[0] + sep + t)
  {
    assert (|parts| - 1) * |sep| == |sep| + (|parts| - 2) * |sep|;
    forall k | 0 <= k < |parts|
      ensures PartAt(parts, sep, parts[0] + sep + t, k)
    {
      PartAtCons(parts, sep, t, k);
    }
    forall k | 0 <= k < |parts| - 1
      ensures SepAfter(parts, sep, parts[0] + sep + t, k)
    {
      SepAfterCons(parts, sep, t, k);
    }
  }

  /** `Array.prototype.join`: the parts in order with `sep` between
      neighbours. */
  function Join(parts: seq<string>, sep: string): (s: string)
    ensures Joined(parts, sep, s)
    ensures parts == [] ==> s == ""
    decreases |parts|
  {
    if parts == [] then ""
    else if |parts| == 1 then
      assert parts[..0] == [];
      parts[0]
    else
      var t := Join(parts[1..], sep);
      JoinedCons(parts, sep, t);
      parts[0] + sep + t
  }

  /** Joining parts whose first part is not empty gives a non-empty text. */
  lemma JoinNotEmpty(parts: seq<string>, sep: string)
    requires parts != [] && parts[0] != ""
    ensures Join(parts, sep) != ""
  {
  }

  /** What `render` writes into the three panels. Classification of a valid
      submission never shows a panel as awaiting input. */
  function Render(i: Inputs): (p: Panels)
    ensures p.hb == Awaiting <==> i.hb.None?
    ensures p.bp == Awaiting <==> i.sys.None? || i.dia.None?
    ensures p.sugar == Awaiting <==> i.sugar.None?
    ensures Validation.Valid(i) ==> p.hb != Awaiting && p.bp != Awaiting && p.sugar != Awaiting
  {
    Validation.ValidHasReadings(i);
    Panels(
      Hemoglobin.ClassifyHB(i.hb),
      BloodPressure.ClassifyBP(i.sys, i.dia),
      BloodSugar.ClassifySugar(i.sugar, i.sugarMode))
  }

  /** The submit handler. A submission with problems only shows them; a
      clean one is rendered and becomes the saved snapshot. */
  function OnSubmit(p: Page, data: Inputs): (r: Page)
    ensures r.saved == (if Validation.Valid(data) then Some(data) else p.saved)
    ensures r.errorText == "" <==> Validation.Valid(data)
    ensures !Validation.Valid(data) ==> r.errorText == Join(Validation.Validate(data), " ")
    ensures !Validation.Valid(data) ==> r.panels == p.panels
    ensures Validation.Valid(data) ==> r.panels == Render(data)
  {
    var errs := Validation.Validate(data);
    if |errs| > 0 then
      assert errs[0] == Validation.Message(Validation.FailingFields(data)[0]);
      JoinNotEmpty(errs, " ");
      p.(errorText := Join(errs, " "))
    else
      Page(Some(data), Render(data), "")
  }

  /** The clear handler: nothing stays saved, there is no error text, and
      the panels look exactly as they do for a form with every reading
      missing, whatever the sugar mode. */
  function OnClear(p: Page): (r: Page)
    ensures r.saved.None? && r.errorText == ""
    ensures forall mode :: r.panels == Render(Inputs(None, None, None, None, mode))
  {
    Page(None, Panels(Awaiting, Awaiting, Awaiting), "")
  }

  function Step(p: Page, a: Action): Page {
    match a
    case Submit(data) => OnSubmit(p, data)
    case Clear => OnClear(p)
  }

  /** The page after a sequence of actions, oldest first. */
  function Run(p: Page, actions: seq<Action>): Page
    decreases |actions|
  {
    if actions == [] then p else Run(Step(p, actions[0]), actions[1..])
  }

  /** A page is consistent when whatever is saved passed validation and is
      exactly what the panels show, so re-rendering the saved snapshot
      reproduces the page's panels. */
  ghost predicate Consistent(p: Page) {
    p.saved.Some? ==> Validation.Valid(p.saved.value) && p.panels == Render(p.saved.value)
  }

  /** Every sequence of submits and clears keeps a page consistent. */
  lemma {:induction false} RunKeepsConsistent(p: Page, actions: seq<Action>)
    requires Consistent(p)
    ensures Consistent(Run(p, actions))
    ensures Run(p, actions).saved.Some? ==> Validation.Validate(Run(p, actions).saved.value) == []
    decreases |actions|
  {
    if actions != [] {
      RunKeepsConsistent(Step(p, actions[0]), actions[1..]);
    }
  }

  /** What the most recent deciding action did to the store. */
  datatype Decision = Undecided | Decided(snapshot: Option<Inputs>)

  /** Reading the actions from the newest backwards, the first clear or
      valid submission decides the store; invalid submissions decide
      nothing. */
  function LastDecision(actions: seq<Action>): Decision
    decreases |actions|
  {
    if actions == [] then Undecided
    else match actions[|actions| - 1]
      case Clear => Decided(None)
      case Submit(data) =>
        if Validation.Valid(data) then Decided(Some(data))
        else LastDecision(actions[..|actions| - 1])
  }

  /** Looking back from the end, an action at the front only matters when
      nothing after it decided. */
  lemma {:induction false} LastDecisionCons(a: Action, rest: seq<Action>)
    ensures LastDecision([a] + rest) ==
      if LastDecision(rest).Decided? then LastDecision(rest) else LastDecision([a])
    decreases |rest|
  {
    if rest != [] {
      var init := rest[..|rest| - 1];
      assert ([a] + rest)[..|rest|] == [a] + init;
      LastDecisionCons(a, init);
    }
  }

  /** The saved snapshot after any run is the one left by the most recent
      clear or valid submission, or the starting one if there was none. */
  lemma {:induction false} RunSavesLastDecision(p: Page, actions: seq<Action>)
    ensures Run(p, actions).saved ==
      match LastDecision(actions)
      case Undecided => p.saved
      case Decided(s) => s
    decreases |actions|
  {
    if actions != [] {
      var a, rest := actions[0], actions[1..];
      assert actions == [a] + rest;
      RunSavesLastDecision(Step(p, a), rest);
      LastDecisionCons(a, rest);
      assert LastDecision([a]) == (
        match a
        case Clear => Decided(None)
        case Submit(data) => if Validation.Valid(data) then Decided(Some(data)) else Undecided);
    }
  }
}
