# Health reading form: classifiers, validation and submit/clear

A Dafny model of the decision logic of a small browser form for health
readings. The form classifies three readings against fixed reference ranges:
hemoglobin, blood pressure (systolic/diastolic) and blood sugar (fasting or
random). It checks four numeric fields against inclusive bounds before it
accepts a submission. It also keeps the last accepted submission as a saved
snapshot.

Modules, one per part of `script.js`:

- `Wrappers`: `Option`. `None` stands for a reading that is `null` or `NaN`.
- `Readings`: the parsed form fields (`Inputs`) and what one metric panel shows (`Display`: value text, badge, badge class, note). The value text is kept abstract as a `Label` that records the number it was made from and the unit.
- `Hemoglobin`, `BloodPressure`, `BloodSugar`: the three classifiers (`classifyHB`, `classifyBP`, `classifySugar`). Each is split into a category function, which holds the thresholds, and the panel it produces. `BloodPressure.Rank` orders the pressure categories by severity. `BloodSugar.Rank` follows the order in which the sugar tables list their categories (Low, Normal, Borderline, High); it is not a severity scale, since a low reading is not the mildest.
- `Validation`: `validate`, with one message per failing field.
- `Form`: `render` and the submit and clear handlers, as steps on an abstract page. A page holds the saved snapshot, the three panels and the error text. `Run` replays a sequence of actions on a page.

Modelling choices:

- Hemoglobin and sugar are `real`, and the two pressures are `int`.
- `Math.round` is `Floor(x + 0.5)` on exact reals: the nearest integer, with halves rounding up.
- The sugar mode is a string. Only the exact text `"fasting"` selects the fasting table; every other text, `"Fasting"` included, selects the random table.
- Badges and classes are the code's own strings, per metric. The class is one of "low", "ok", "warn" and "high" (empty while awaiting input). Sugar's middle badge is "Borderline", and pressure has two "warn" badges (Elevated, Stage 1) and two "high" badges (Stage 2, Urgent).

## Model

| member | source | states |
|---|---|---|
| Hemoglobin.LevelOf | script.js:14-17 | low exactly below 12, high exactly above 16, normal exactly on the closed range [12, 16] |
| Hemoglobin.ClassifyHB | script.js:13-18 | awaiting input exactly when the reading is missing/NaN; otherwise the label holds the value, badge "Low"/"Normal"/"High" each exactly on its range (12 and 16 normal), the class is "low"/"ok"/"high" exactly with the matching badge, and the note is "Below/Within/Above general adult reference (12–16)." exactly with badge Low/Normal/High |
| Hemoglobin.BoundariesAreNormal | script.js:15-17 | 12.0 and 16.0 are normal, 11.9 low, 16.1 high |
| BloodPressure.CategoryOf | script.js:27-39 | the first-match rule chain, described as five disjoint regions: urgent iff s≥180 or d≥120; stage 2 iff below that and s≥140 or d≥90; stage 1 iff s<140, d<90 and (s≥130 or d≥80); elevated iff 120≤s≤129 and d<80; normal iff s<120 and d<80 |
| BloodPressure.ClassifyBP | script.js:21-40 | awaiting input exactly when either reading is missing; otherwise label carries both readings and each of the five badges holds exactly on its region: "Urgent (Seek care)" iff s≥180 or d≥120, "High (Stage 2)" iff below that and s≥140 or d≥90, "High (Stage 1)" iff s<140, d<90 and (s≥130 or d≥80), "Elevated" iff 120≤s≤129 and d<80, "Normal" iff s<120 and d<80; class "high" iff s≥140 or d≥90, "warn" iff s<140, d<90 and (s≥120 or d≥80), "ok" iff s<120 and d<80; each badge comes exactly with its own rule's note ("≥180 systolic or ≥120 diastolic.", …, "<120 and <80.") |
| BloodPressure.RankMonotone | script.js:27-39 | raising systolic or diastolic never lowers the category in the order Normal < Elevated < Stage 1 < Stage 2 < Urgent |
| BloodPressure.CrisisOverrides | script.js:27-29 | s≥180 or d≥120 gives "Urgent (Seek care)" with class "high" whatever the other reading is |
| BloodPressure.PriorityExamples | script.js:27-39 | 180/70 urgent, 135/95 stage 2 (not stage 1), 129/85 stage 1 (not elevated), 125/78 elevated, 110/70 normal |
| BloodSugar.Round | script.js:45 | the result n is the nearest integer with halves going up: n − 0.5 ≤ x < n + 0.5 |
| BloodSugar.RoundWhole | script.js:45 | rounding a whole number gives it back |
| BloodSugar.CategoryOf | script.js:47-57 | fasting table: low <70, normal 70–99, borderline 100–125, high ≥126; random table: low <70, normal 70–139, borderline 140–199, high ≥200, each an iff |
| BloodSugar.ClassifySugar | script.js:43-58 | awaiting exactly when missing; label holds the rounded value and the table used; on the raw reading each badge holds exactly on the half-shifted range (fasting normal iff 69.5 ≤ x < 99.5, borderline iff 99.5 ≤ x < 125.5, ...), only mode "fasting" uses the fasting table; the class is "low"/"ok"/"warn"/"high" exactly with badge Low/Normal/Borderline/High; the note is exactly the one of the table used for that badge ("Fasting <70 may indicate hypoglycemia." vs "Random <70 …", "70–99." vs "<140.", and the two prediabetes and diabetes ranges) |
| BloodSugar.FastingAtLeastAsSevere | script.js:47-56 | for the same rounded value the fasting category is never below the random one |
| BloodSugar.RankMonotone | script.js:47-57 | within one table a higher value never gets a lower category |
| BloodSugar.BoundaryExamples | script.js:43-57 | fasting 99.4 normal, 99.5 borderline, 126 high; random 139 normal, 140 borderline; mode "Fasting" (capital F) uses the random table, so 200 is high |
| Validation.FailingFields | script.js:75-78 | a field is listed iff it is missing or outside its inclusive bounds (hb 1–25, sys 60–260, dia 40–160, sugar 30–500), and the listed fields are in check order hb, sys, dia, sugar, so each at most once |
| Validation.Validate | script.js:73-80 | empty exactly when all four fields pass; a field's message appears iff that field fails; the k-th message is the message of the k-th failing field in check order, so at most four messages, none repeated |
| Validation.AllFailing | script.js:73-80 | when every field fails, the result is exactly the four messages in check order |
| Validation.ModeIgnored | script.js:73 | the sugar mode never affects validation |
| Validation.AllFourReported | script.js:75-78 | hb 0.5, sys 59, dia 161, sugar 501 together give exactly the four messages in order |
| Form.Join | script.js:124 | the result is the parts joined: length is the parts' total plus one separator per neighbouring pair, part k sits right after the k earlier parts and k separators, and the separator follows every part but the last; no parts gives "" |
| Form.JoinedCons | script.js:124 | a part, the separator and a joined tail together are the joined whole |
| Form.Render | script.js:82-98 | each panel awaits input exactly when its reading (either pressure reading for the BP panel) is missing; a valid submission never renders an awaiting panel |
| Form.OnSubmit | script.js:118-129 | the snapshot becomes the data iff it validates, else it stays; error text empty iff valid, and on an invalid submit it is the validation messages joined by single spaces; invalid leaves the panels unchanged, valid renders the data |
| Form.OnClear | script.js:131-137 | no snapshot, empty error text, and panels equal to those rendered for all-missing inputs in any mode, whatever the prior page |
| Form.RunKeepsConsistent | script.js:118-137 | after any sequence of submits and clears, a saved snapshot passes validation and re-rendering it reproduces the panels (given a consistent start) |
| Form.RunSavesLastDecision | script.js:118-137 | after any sequence the saved snapshot is the one left by the most recent clear or valid submit, scanning back from the end; invalid submits are ignored |

## Left out

- DOM helpers `$`, `setText`, `setBadge` and element lookups: browser plumbing. A panel is the `Display` value the helpers would write.
- `readInputs`: the string parsing of `parseFloat`/`parseInt` belongs to the JavaScript runtime. The model starts from parsed `Option` values. IEEE infinities and floating-point error are not modelled: readings are exact reals.
- `toFixed(1)` and the template-string formatting of labels: number-to-text formatting. `Label` records the number the text is made from, not the text. For hemoglobin this is the unrounded reading, so 12.03 and 12.04 get different labels although both show "12.0 g/dL". The sugar label does hold the rounded value that is shown.
- `saveToLocalStorage` and `loadFromLocalStorage`: they depend on browser storage and JSON. The store is the page's `saved` field. Startup loading is not modelled, including its truthiness checks on each saved field and its silent `catch`. `Form.RunKeepsConsistent` states the matching property: re-rendering the saved snapshot gives back the panels.
- The live re-render on every input event: it is event wiring. Such an edit would change the panels without touching the snapshot. `Form.RunKeepsConsistent` therefore covers only submit and clear actions.
- The footer year: it comes from the clock.
