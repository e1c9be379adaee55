# Observability portfolio pages: a Dafny model

This project models the browser-side logic of a static observability
portfolio site. The site has six scripts:

- `workflow.js` is the incident-workflow simulator. It steps through eight
  phases (Alert, Data Collection, Incident, Ticketing, Runbook, RCA,
  Ticket Close, Executive Summary) over a randomly built scenario.
- `app.js` renders the incident list and the incident detail.
- `security.js`, `status.js`, `runbooks.js` and `rca.js` render the
  security, status, runbook-library and root-cause-analysis pages.

What is modelled:

- the workflow state machine and its step marking, scenario building and
  artifact selection;
- the HTML escaping routine that five of the scripts copy;
- the classification, default, filter and selection rules of the page
  renderers.

Modules:

- `Js` holds JavaScript value semantics: `undefined`/`null` as `Option`,
  `||` and `??`, array-or-not fields, ASCII case mapping, `trim`,
  `includes`, `join`/`split` and decimal text.
- `Html` defines the escape routine once, as the script writes it (five
  chained `replaceAll`s). It proves the routine equal to a one-pass
  character map, and proves that map inverted by an entity decoder. It
  also holds the generic "placeholder or one row per record" listing, the
  row-appending loop and the "exactly one active item" selection.
- `Workflow` holds a pure state machine (`Core`: `idx`, `playing`,
  `scenario`, a pending-tick delay) and the class `Stepper`. The class
  keeps that state and the page's slots (status text, phase label, artifact
  panel, meta fields, node and chip arrays). Its methods update them in
  place.
- `App`, `Security`, `Status`, `Runbooks` and `Rca` have one module per
  page. Each page's own copy of the escape routine is declared with the
  contract that it is `Html.Escape`. Rendered output is modelled as row and
  card records, not markup.

Inputs are parameters:

- Loaded JSON documents are values.
- `Math.random()` draws are caller-supplied reals in [0, 1) (`Rolls`).
- The clock reading of `nowStamp()` is a string.
- The locale-dependent `formatWhen` is a function.

`makeScenario` computes a fallback service pool for a category outside the
catalogue (docs/workflow/workflow.js:181). But reading `label` of the
missing catalogue entry (docs/workflow/workflow.js:186) throws first, so
that pool is never used for a returned scenario. `MakeScenario` returns
`None` there, and `GoTo`/`Run` report the throw and leave the state as the
code leaves it.

## Model

| member | source | states |
|---|---|---|
| Js.OrFallsBackOnEmpty | docs/assets/app.js:51-73 | `x \|\| d` falls back on both a missing and an empty string; `x ?? d` falls back only on a missing one |
| Js.Lower | docs/assets/app.js:14 | the result has the input's length and no upper-case ASCII letter; every other character is kept, and each upper-case letter becomes the lower-case letter it upper-cases back to |
| Js.Upper | docs/status/status.js:58 | the result has the input's length and no lower-case ASCII letter; every other character is kept, and each lower-case letter becomes the upper-case letter it lower-cases back to |
| Js.LowerIdempotent | docs/assets/app.js:14 | lower-casing twice is lower-casing once |
| Js.LowerIgnoresCase | docs/security/security.js:8 | strings that agree character by character up to case lower-case to the same string |
| Js.TrimStart | docs/runbooks/runbooks.js:16 | the result is a suffix of the input, the removed prefix is all white space, and the result does not start with white space |
| Js.TrimEnd | docs/runbooks/runbooks.js:16 | the result is a prefix of the input, the removed suffix is all white space, and the result does not end with white space |
| Js.TrimStartAllSpace | docs/runbooks/runbooks.js:16 | trimming the start of an all-white-space string leaves nothing |
| Js.TrimEmptyIffAllSpace | docs/runbooks/runbooks.js:16-19 | `trim()` gives "" exactly when the string is all white space |
| Js.LowerKeepsSpace | docs/runbooks/runbooks.js:16 | lower-casing neither creates nor removes white space |
| Js.LowerTrimStart | docs/runbooks/runbooks.js:16 | lower-casing commutes with trimming the start |
| Js.LowerTrimEnd | docs/runbooks/runbooks.js:16 | lower-casing commutes with trimming the end |
| Js.LowerTrim | docs/runbooks/runbooks.js:16 | `trim().toLowerCase()` equals `toLowerCase().trim()` |
| Js.IncludesAt | docs/runbooks/runbooks.js:21 | `includes(q)` holds exactly when `q` occurs at some position |
| Js.IncludesEmpty | docs/runbooks/runbooks.js:19-21 | every string includes the empty string |
| Js.Split | docs/workflow/workflow.js:271-273 | splitting always yields at least one piece |
| Js.SplitFreePrefix | docs/workflow/workflow.js:271-273 | a prefix free of the separator joins the first piece of the rest |
| Js.SplitJoin | docs/workflow/workflow.js:271-273 | splitting a newline join of newline-free parts gives back the parts |
| Js.Digit | docs/workflow/workflow.js:43 | a digit value becomes a digit character |
| Js.DecimalRoundTrip | docs/workflow/workflow.js:43 | `String(n)` of a natural number is all digits and parses back to `n` |
| Js.DecimalWidth | docs/workflow/workflow.js:177-179 | a number in [10^(k-1), 10^k) prints as exactly k digits with no leading zero |
| Html.ReplaceAllAppend | docs/assets/app.js:52-56 | `replaceAll` of one character distributes over concatenation |
| Html.EscapeChainAppend | docs/assets/app.js:50-57 | the five-step chain distributes over concatenation |
| Html.ReplaceAllFree | docs/assets/app.js:52-56 | `replaceAll` of a character the string lacks changes nothing |
| Html.ReplaceAllHit | docs/assets/app.js:52-56 | `replaceAll` on the lone character gives the replacement |
| Html.EscapeChainAmp | docs/assets/app.js:52-56 | the chain turns "&" into "&amp;", and later steps leave that entity alone |
| Html.EscapeChainLt | docs/assets/app.js:52-56 | the chain turns "<" into "&lt;" and does not escape its "&" again |
| Html.EscapeChainGt | docs/assets/app.js:52-56 | the chain turns ">" into "&gt;" |
| Html.EscapeChainQuot | docs/assets/app.js:52-56 | the chain turns a double quote into "&quot;" |
| Html.EscapeChainApos | docs/assets/app.js:52-56 | the chain turns a single quote into "&#039;" |
| Html.EscapeChainPlain | docs/assets/app.js:52-56 | the chain leaves a character that is none of the five alone |
| Html.EscapeChainOne | docs/assets/app.js:52-56 | on one character the chain gives that character's entity |
| Html.EscapeChainIsEscapeEach | docs/assets/app.js:50-57 | the chain equals the one-pass map that replaces each special character by its entity, so nothing is escaped twice |
| Html.EscapeEachNoRaw | docs/assets/app.js:50-57 | the one-pass map's output holds no raw `<`, `>`, `"` or `'` |
| Html.EscapeEachIdentity | docs/assets/app.js:50-57 | the one-pass map is the identity on text with no special character |
| Html.EscapeEachIdentityIf | docs/assets/app.js:50-57 | the same, stated for every input |
| Html.UnescapeEntity | docs/assets/app.js:52-56 | the decoder reads each entity back as its character |
| Html.UnescapeAmp | docs/assets/app.js:52 | the decoder reads "&amp;" as "&" and goes on after it |
| Html.UnescapeLt | docs/assets/app.js:53 | the decoder reads "&lt;" as "<" and goes on after it |
| Html.UnescapeGt | docs/assets/app.js:54 | the decoder reads "&gt;" as ">" and goes on after it |
| Html.UnescapeQuot | docs/assets/app.js:55 | the decoder reads "&quot;" as a double quote and goes on after it |
| Html.UnescapeApos | docs/assets/app.js:56 | the decoder reads "&#039;" as a single quote and goes on after it |
| Html.UnescapePlain | docs/assets/app.js:52-56 | the decoder keeps a character that is none of the five |
| Html.UnescapeEscapeEach | docs/assets/app.js:50-57 | decoding the one-pass map's output gives the input back |
| Html.Escape | docs/assets/app.js:50-57 | `null`/`undefined` give "", the output holds no raw `<`, `>`, `"` or `'`, and text with no special character is returned unchanged |
| Html.EscapeIsOnePass | docs/assets/app.js:52-53 | the chain is the one-pass map because "&" is replaced first |
| Html.EscapeRoundTrip | docs/assets/app.js:50-57 | decoding the escaped text gives the original (or "" for a missing value) |
| Html.EscapeExamples | docs/assets/app.js:52-53 | "<" escapes to "&lt;", not "&amp;lt;"; "&lt;" escapes to "&amp;lt;" |
| Html.EscapeOfLt | docs/assets/app.js:52-53 | "<" escapes to "&lt;" |
| Html.EscapeOfLtEntity | docs/assets/app.js:52-53 | "&lt;" escapes to "&amp;lt;": a present entity is escaped once more |
| Html.EscapeEachLtEntity | docs/assets/app.js:52-53 | the one-pass map turns "&lt;" into "&amp;lt;" |
| Html.EscapeInjective | docs/assets/app.js:50-57 | two inputs with the same escape are the same text |
| Html.EscapeAll | docs/runbooks/runbooks.js:28 | mapping the escape over a list keeps its length, and each element holds no raw special character and decodes back to the input element |
| Html.EscapeAllRoundTrip | docs/runbooks/runbooks.js:28 | every element of the list decodes back from its escape |
| Html.ListingOf | docs/status/status.js:52-68 | an empty list gives the placeholder notice, and a non-empty one gives one row per record, in order |
| Html.AppendRows | docs/assets/app.js:64-86 | the loop appends exactly one row per record, in order |
| Html.OnlyActiveCount | docs/runbooks/runbooks.js:35-36 | when only item `k` is flagged, the number of active items is 1 if `k` is in range and 0 otherwise |
| Html.SelectOnly | docs/runbooks/runbooks.js:35-36 | clearing every flag and then setting item `k` leaves item `k` as the only active one |
| Workflow.Pad | docs/workflow/workflow.js:43 | the padded text is all digits and reads back as `n`; below 100 it has two characters; from 10 on it is `String(n)` |
| Workflow.PadZero | docs/workflow/workflow.js:43 | a leading "0" does not change a digit string's value |
| Workflow.BulletsLines | docs/workflow/workflow.js:271-273 | splitting the bullets at newlines gives one indent-prefixed line per input line, in order |
| Workflow.ScaledFloor | docs/workflow/workflow.js:177-179 | `floor(lo + r * width)` with r in [0, 1) lies in [lo, lo + width) |
| Workflow.Pick | docs/workflow/workflow.js:48 | `randPick` returns a member of the array |
| Workflow.CatalogueShape | docs/workflow/workflow.js:51-173 | the catalogue and the service pools are keyed by the same five categories, and every pool is non-empty |
| Workflow.ServicePool | docs/workflow/workflow.js:181 | the pool is the category's own when the category has one, and is never empty |
| Workflow.ChosenType | docs/workflow/workflow.js:173-174 | "random" picks one of the catalogue's categories; any other value is used as given |
| Workflow.IdNumbers | docs/workflow/workflow.js:177-179 | incident, ticket and alert numbers lie in [1000, 9999], [100000, 999999] and [10000, 99999], and the IDs read `INC-`, `CHG-` and `ALRT-` followed by exactly 4, 6 and 5 digits |
| Workflow.IdShapedFrom | docs/workflow/workflow.js:177-179 | a prefix followed by a k-digit number has the ID shape |
| Workflow.MakeScenario | docs/workflow/workflow.js:50-197 | a scenario exists exactly when the chosen category is in the catalogue ("random" always is); it carries that entry's fields, a service from that category's pool, a listed region and well-shaped IDs |
| Workflow.MarkCounts | docs/workflow/workflow.js:251-268 | for a cursor `idx`, `idx` steps are done, exactly one is active when `idx` is on a step and none when it is -1, and the rest are pending |
| Workflow.ChipAgreesWithNode | docs/workflow/workflow.js:255-266 | a step's chip and node agree on active and done, and these follow its done/active/pending mark |
| Workflow.ArtifactFor | docs/workflow/workflow.js:275-468 | an artifact exists exactly for indices 0 to 7, with that step's name as phase and its status text; any other index throws before the default case |
| Workflow.StatusesDistinct | docs/workflow/workflow.js:280-438 | the eight status texts are non-empty and pairwise different |
| Workflow.ArtifactStamped | docs/workflow/workflow.js:275-468 | each artifact has a non-empty title, and its body is the step's log behind the bracketed clock reading |
| Workflow.OnlyStampVaries | docs/workflow/workflow.js:276-468 | two readings of the clock give the same title, subtitle and log text; only the stamp differs |
| Workflow.TitleNonEmpty | docs/workflow/workflow.js:280-462 | each of the eight steps has a non-empty artifact title |
| Workflow.DelayAfter | docs/workflow/workflow.js:515 | the next tick waits 1100 after reaching step 1, 1200 after step 4, and 950 otherwise |
| Workflow.Clamp | docs/workflow/workflow.js:477 | the index lands in [0, 7]: below 0 gives 0, above 7 gives 7, and in range it is kept |
| Workflow.Place | docs/workflow/workflow.js:477-488 | the new index is the clamped one, and playing stops on reaching the last step |
| Workflow.GoTo | docs/workflow/workflow.js:470-489 | `goToStep` throws only when it must create a scenario and cannot; otherwise the index is clamped, an existing scenario is kept or a new one created, reaching step 7 stops playing, and the invariant is preserved |
| Workflow.Next | docs/workflow/workflow.js:491-494 | at index 7 or beyond nothing changes; otherwise the index becomes exactly `idx + 1` |
| Workflow.Run | docs/workflow/workflow.js:496-521 | a no-op while playing; otherwise a new scenario, index 0, playing, and one tick pending after 900 |
| Workflow.AfterTick | docs/workflow/workflow.js:508-517 | a tick stops without rescheduling when not playing or at step 7; otherwise it advances one step and schedules the next after `DelayAfter` |
| Workflow.TickIsNext | docs/workflow/workflow.js:508-516 | a tick while playing advances exactly as `nextStep` does and never throws |
| Workflow.Ticks | docs/workflow/workflow.js:508-517 | any number of ticks keeps the state invariant |
| Workflow.AutoAdvance | docs/workflow/workflow.js:508-517 | while playing, `n` ticks move the index forward by `n`, keep the scenario and a pending tick, and stop playing exactly on step 7 |
| Workflow.DemoRunsToCompletion | docs/workflow/workflow.js:496-521 | a started demo reaches step 7 and stops, with no tick pending, after eight ticks |
| Workflow.TicksThen | docs/workflow/workflow.js:508-517 | ticking `a + b` times is ticking `a` times and then `b` times |
| Workflow.PanelIsArtifactFor | docs/workflow/workflow.js:480-483 | the panel a step shows is that step's artifact, with its phase label and status |
| Workflow.Stepper.constructor | docs/workflow/workflow.js:12-17 | the page starts idle: no step, not playing, no scenario, no tick, every step pending and the "Ready" panel |
| Workflow.Stepper.ChooseScenario | docs/workflow/workflow.js:500 | the selected category is the one the next scenario is built from |
| Workflow.Stepper.MarkStep | docs/workflow/workflow.js:251-269 | every node and chip is marked done, active or pending for the given index |
| Workflow.Stepper.Advance | docs/workflow/workflow.js:477-488 | the state is placed at the clamped index, the step is marked, and the panel, phase and status (or "Complete" on step 7) are written |
| Workflow.Stepper.GoToStep | docs/workflow/workflow.js:470-489 | the new state is `GoTo` of the old one; on a throw nothing changes; otherwise the step is shown and the meta fields describe a newly created scenario |
| Workflow.Stepper.NextStep | docs/workflow/workflow.js:491-494 | the new state is `Next` of the old one, and at the end nothing changes |
| Workflow.Stepper.ClickNode | docs/workflow/workflow.js:217-224 | a map-node click goes to that step, creating a scenario first when there is none |
| Workflow.Stepper.ClickNext | docs/workflow/workflow.js:549-557 | the Next button creates a scenario if needed and advances as `Next` does |
| Workflow.Stepper.RunDemo | docs/workflow/workflow.js:496-521 | the new state is `Run` of the old one; while playing nothing changes; otherwise step 0 is shown with the new scenario's meta |
| Workflow.Stepper.Tick | docs/workflow/workflow.js:508-517 | the new state is `AfterTick` of the old one; the next step is shown only when the tick advanced |
| Workflow.Stepper.ResetAll | docs/workflow/workflow.js:523-546 | from any state the stepper is idle again: index -1, not playing, no scenario and no tick, every step pending and every slot back to its placeholder |
| App.EscapeHtml | docs/assets/app.js:50-57 | this copy is `Html.Escape` |
| App.PlainDefaults | docs/assets/app.js:73-187 | the fallback texts have no special character and are shown as written |
| App.SeverityPill | docs/assets/app.js:13-18 | lower-cased "high" gives bad and "medium" gives warn; anything else, missing included, gives good |
| App.SeverityPillIgnoresCase | docs/assets/app.js:14 | the pill does not depend on letter case, and a missing severity is good |
| App.SeverityPillExamples | docs/assets/app.js:13-18 | "High" is bad, "MEDIUM" is warn and "Low" is good |
| App.GetLiveViewLink | docs/assets/app.js:45-48 | the link is `grafana.url` when both exist and the URL is non-empty, and null otherwise |
| App.HeadlineOf | docs/assets/app.js:67-81 | the row's pill; its severity (default "Low"), title (default the id), customer symptom (default "") and location (default "-"), each the escaped field when present; and its escaped time |
| App.RenderIncidentsTable | docs/assets/app.js:59-87 | one row per incident, in order, each with that incident's headline and id |
| App.BuildTimeline | docs/assets/app.js:89-117 | no timeline card when `timeline` is missing, not an array or empty; otherwise one row per entry, in order |
| App.EvidenceCardOf | docs/assets/app.js:145-149 | the image source is the escaped path; the alternative text defaults to "Evidence" and the caption to "", and a present caption is escaped into both |
| App.EvidenceView | docs/assets/app.js:141-153 | missing or empty evidence gives the "No evidence images linked yet." notice, otherwise one card per item |
| App.OutcomeOf | docs/assets/app.js:168-187 | status defaults to "Resolved", impact to "-", findings and mitigation to "—"; each present field is shown escaped |
| App.CardOf | docs/assets/app.js:139-199 | the detail card has the table row's headline, a live-view link exactly when one exists (escaped, decoding back to the URL), and the timeline and evidence views |
| App.FindIndex | docs/assets/app.js:124 | the index found is the first incident with that id; none is found only when no incident has it |
| App.RenderIncidentDetail | docs/assets/app.js:119-199 | no id renders nothing; an id no incident has renders the not-found card with it escaped; otherwise the card of the incident `find` returns |
| App.DetailIsFirstMatch | docs/assets/app.js:124-199 | a rendered card is the card of the first incident whose id is the query |
| App.FirstMatchWins | docs/assets/app.js:124 | of two incidents with the same id, the earlier one is shown |
| App.UnknownIdNotFound | docs/assets/app.js:129-137 | an id absent from the list renders "No incident with id: " followed by the id |
| Security.EscapeHtml | docs/security/security.js:15-22 | this copy is `Html.Escape` |
| Security.RiskClass | docs/security/security.js:7-13 | lower-cased "accepted", "monitored" and "mitigated" each get their modifier class; anything else gets the base class only |
| Security.RiskClassIgnoresCase | docs/security/security.js:8 | the class does not depend on letter case |
| Security.RiskClassExamples | docs/security/security.js:7-13 | "Accepted" and "MITIGATED" get their classes; "High" and a missing risk get the base class |
| Security.MonitoredClass | docs/security/security.js:35-40 | the "Monitored" fallback gets the monitored class |
| Security.PlainDefaults | docs/security/security.js:34-82 | the fallback texts are shown as written |
| Security.ThreatRowOf | docs/security/security.js:33-43 | vector and threat are escaped when present and "" otherwise; risk and status default to "Monitored", and the pill class is computed after that fallback |
| Security.RenderThreats | docs/security/security.js:24-45 | a non-array or empty input gives the single "No threat data found." row; otherwise one row per threat, in order |
| Security.Kpis | docs/security/security.js:51-56 | the four KPIs carry the four metric values in card order |
| Security.CardFor | docs/security/security.js:62-64 | a missing value shows "—"; a present one, even empty, is shown as it is |
| Security.RenderKpis | docs/security/security.js:58-65 | the first min(4, cards) cards are written with the KPIs in order; other cards are left alone |
| Security.DecisionCardOf | docs/security/security.js:77-88 | the title defaults to "Decision" and the tag to "Tradeoff"; date, reason, tradeoff and mitigation are escaped when present and "" otherwise; every field is free of raw markup |
| Security.RenderDecisions | docs/security/security.js:68-91 | a non-array or empty input gives the "No decision log found." placeholder; otherwise one card per decision |
| Security.FlowPanel.constructor | docs/security/security.js:136-141 | the panel starts with the page's own flags and markup |
| Security.FlowPanel.Click | docs/security/security.js:142-154 | after a click exactly the clicked node is active; a known step shows its title, and an unknown or missing step leaves the panel unchanged |
| Status.Esc | docs/status/status.js:7-11 | this copy is `Html.Escape` |
| Status.DotClass | docs/status/status.js:13-18 | lower-cased "operational" is green, "degraded" is yellow, and anything else, missing included, is red |
| Status.PillText | docs/status/status.js:20-25 | lower-cased "operational" and "degraded" get their texts; anything else reads "Service disruption" |
| Status.DotAgreesWithPill | docs/status/status.js:13-25 | the dot and the pill text agree case for case |
| Status.StatusIgnoresCase | docs/status/status.js:14-21 | neither mapping depends on letter case, and a missing state is red |
| Status.StatusExamples | docs/status/status.js:13-18 | "Operational" is green, "DEGRADED" yellow and "outage" red |
| Status.PlainDefaults | docs/status/status.js:35-77 | the fallback texts are shown as written |
| Status.UpperLow | docs/status/status.js:77 | upper-casing "low" gives "LOW" |
| Status.PillPlain | docs/status/status.js:38 | the pill texts have no special character |
| Status.BannerOf | docs/status/status.js:33-44 | the title defaults to "Status update" (a present title is escaped, see the next row); the body is escaped when present and "" otherwise; the dot and pill follow the banner state |
| Status.BannerTitleShown | docs/status/status.js:35 | a present banner title is shown escaped |
| Status.MetaText | docs/status/status.js:46 | a missing "last updated" reads "—" whatever the other field is, and likewise a missing "next update"; present values are shown as given |
| Status.ServiceCardOf | docs/status/status.js:52-67 | the name is escaped; the summary is escaped when present and "" otherwise; the dot follows the status, the status is shown upper-cased; impact and owner are escaped when present and default to "None" and "Ops"; a details link appears exactly when one is given, is its escaped value and decodes back to it |
| Status.UpdatePill | docs/status/status.js:77 | exactly "high" is bad and exactly "medium" is warn; any other level, in any other case, is good |
| Status.UpdateRowOf | docs/status/status.js:73-80 | time and text are escaped when present and "" otherwise; the shown level is upper-cased and defaults to "LOW" |
| Status.UpdatePillIsCaseSensitive | docs/status/status.js:77 | "High" gets the good pill while its label reads "HIGH" |
| Status.ServicesOf | docs/status/status.js:51-68 | a non-array or empty `services` gives "No services listed yet."; otherwise one card per service |
| Status.UpdatesOf | docs/status/status.js:72-81 | a non-array or empty `updates` gives "No updates yet."; otherwise one row per update |
| Status.StatusPage.constructor | docs/status/status.js:29-31 | the page's slots start with the given texts and empty lists |
| Status.StatusPage.Render | docs/status/status.js:27-82 | every slot is rewritten from the document: banner, meta line, customer message (default "—"), services and updates |
| Status.EmptyDocument | docs/status/status.js:27-81 | an empty document renders the defaults and both empty notices |
| Runbooks.Esc | docs/runbooks/runbooks.js:6-10 | this copy is `Html.Escape` |
| Runbooks.FilterRunbooks | docs/runbooks/runbooks.js:18-22 | a runbook is in the filtered list exactly when it is loaded and matches the query, and the list is no longer than the loaded one |
| Runbooks.FilterIsSubsequence | docs/runbooks/runbooks.js:18 | the filtered list is an order-preserving subsequence of the loaded runbooks |
| Runbooks.FilterEmptyQuery | docs/runbooks/runbooks.js:19 | an empty query keeps every runbook |
| Runbooks.BlankFilterListsAll | docs/runbooks/runbooks.js:16-19 | an empty or all-white-space filter lists every runbook |
| Runbooks.FilterMeansSubstring | docs/runbooks/runbooks.js:16-21 | with a non-blank filter, a runbook is listed exactly when the trimmed, lower-cased filter occurs in its lower-cased title, tags and "when" text |
| Runbooks.FilterIgnoresCase | docs/runbooks/runbooks.js:16 | the letter case of the filter does not change the result |
| Runbooks.ItemOf | docs/runbooks/runbooks.js:24-30 | an item carries the escaped id as `data-id`, the escaped title and one escaped tag per tag, in order |
| Runbooks.DatasetIdIsId | docs/runbooks/runbooks.js:25-37 | the id read back from `data-id` is the runbook's id |
| Runbooks.FindById | docs/runbooks/runbooks.js:38-47 | a found runbook is loaded, has that id, and no earlier runbook has it; none is found exactly when no runbook has the id |
| Runbooks.EscalateText | docs/runbooks/runbooks.js:70 | a missing escalation text reads "If the issue persists or impact grows." |
| Runbooks.DetailOf | docs/runbooks/runbooks.js:52-87 | the title is escaped; `when`, goal and stakeholder message are escaped when present and "" otherwise; one escaped entry per step, none when steps are missing, and the escalation text or its default |
| Runbooks.ListFor | docs/runbooks/runbooks.js:24-31 | no match gives the single "No matching runbooks." notice; otherwise one item per filtered runbook, in order |
| Runbooks.ListAll | docs/runbooks/runbooks.js:16-31 | with no filter every runbook is listed, in order |
| Runbooks.SelectionReplacesIffFound | docs/runbooks/runbooks.js:38-39 | a selection replaces the detail exactly when some loaded runbook has the item's id |
| Runbooks.SelectingShowsOwnRunbook | docs/runbooks/runbooks.js:37-48 | selecting the item of a runbook with a unique id shows that runbook |
| Runbooks.RunbookPage.constructor | docs/runbooks/runbooks.js:12 | the page starts with no runbooks, no items and no detail |
| Runbooks.RunbookPage.Init | docs/runbooks/runbooks.js:89-96 | the loaded runbooks are stored and all of them are listed; the first, if any, is the only active item and is shown; with no runbooks no item is active and the detail is untouched |
| Runbooks.RunbookPage.RenderList | docs/runbooks/runbooks.js:14-50 | the list is rebuilt for the filter; with no match the detail is kept; otherwise the first item is the only active one and its runbook is shown |
| Runbooks.RunbookPage.SelectFirst | docs/runbooks/runbooks.js:43-49 | the first item of a non-empty list is the only active one and its runbook is shown |
| Runbooks.RunbookPage.Search | docs/runbooks/runbooks.js:93-95 | a search-box edit re-renders the list for the typed value, or "" |
| Runbooks.RunbookPage.Click | docs/runbooks/runbooks.js:33-41 | after a click exactly that item is active, and the runbook with its id, if found, is shown |
| Rca.Esc | docs/rca/rca.js:6-10 | this copy is `Html.Escape` |
| Rca.SeverityPill | docs/rca/rca.js:15 | exactly "High" is bad and exactly "Medium" is warn; anything else is good |
| Rca.PillCaseContrast | docs/rca/rca.js:15 | "high" is good here but bad on the incident pages; "High" is bad on both |
| Rca.ItemOf | docs/rca/rca.js:51-54 | the item carries its position as `data-i`; title, date and severity are escaped; its tag defaults to "Review" |
| Rca.ListOf | docs/rca/rca.js:50-55 | no RCAs, or no document, gives the single "No RCAs yet." notice; otherwise one item per RCA carrying its position |
| Rca.DetailOf | docs/rca/rca.js:12-44 | the pill follows the severity; severity text, title, date, what happened, impact and root cause are escaped; a present related incident is escaped and a missing one reads "—"; one escaped bullet per change and per prevention item, none when missing |
| Rca.RcaPage.constructor | docs/rca/rca.js:46-48 | the page starts with no RCAs, the notice and no detail |
| Rca.RcaPage.Init | docs/rca/rca.js:46-72 | the list is written; when it has items the first is the only active one and its RCA is shown; otherwise the detail is untouched |
| Rca.RcaPage.Click | docs/rca/rca.js:58-64 | after clicking item i exactly item i is active and the RCA at position i is shown |

## Left out

- Loading data is left out: `fetch`, JSON parsing, cache-busting query strings, `Promise.all` and the asynchronous error paths (`catch`, `console.error`). The loaded documents are inputs.
- Browser calls are left out: the clipboard, `alert`, the file download, and the Markdown ticket and e-mail templates. They are foreign calls and fixed template text with no rule to check.
- The runbook page's copy button writes the stakeholder message to the clipboard, a foreign call, so it is left out.
- Real timers are not modelled. `setTimeout`/`clearTimeout` become one pending-tick delay (`timer: Option<nat>`). A stale timer handle left in `state.timer` after a tick fires is not modelled.
- `Math.random()` draws are reals in [0, 1) that the caller supplies. The rounding of floating-point multiplication is not modelled; `floor` is taken over exact reals.
- `nowStamp()` and `Date` reduce to the stamp string the caller supplies. `formatWhen` and its locale-dependent `toLocaleString` are a function parameter.
- DOM construction is left out: `querySelector`, `createElement`, `innerHTML`, event wiring, and the markup of `buildMap`/`buildTimeline`. Rendered output is row, card and flag records. When an expected element is missing, the page functions return early (`if (!tbody) return` and the like); the model assumes every element exists.
- The prose of the scenario catalogue (labels, causes, symptoms, actions, prevention) is replaced by placeholder text in the catalogue's shape. The step titles, subtitles, severities and runbook names are kept.
- The body HTML of the security page's `FLOW` entries is left out; the model keeps the key and the title of each step.
- `encodeURIComponent` in the incident table's link is left out; the row keeps the raw id.
- Case mapping is ASCII only; `toLowerCase`/`toUpperCase` outside ASCII letters are not modelled.
- Field values are strings, string lists or missing. `String()` of numbers, objects or booleans is not modelled, except that KPI values are taken as the text `String(value)` would give.
- A truthy `tags`, `steps`, `changes` or `prevention` field that is not an array is not modelled.
- An incident id, a flow step or a scenario type that names an `Object.prototype` member is not modelled. For a scenario type such as "constructor", `SCENARIOS[type]` and `servicesByType[type]` find inherited members, so `makeScenario` does not throw there; `MakeScenario` returns `None` for it as for any other name outside the catalogue. The scenario select only offers the catalogue's own keys.
- `sre-metrics/generate_metrics.py` and `sre-metrics/analyze_slo.py` are offline floating-point numerics with file I/O, so they are not part of this model.
- Rca.RcaPage.Init: records are never falsy in the model, so the `data[0]` test of the auto-selection (docs/rca/rca.js:68) always passes when there is an item; a falsy first element such as `0` or `null` in the document is not modelled.
- Rca.RcaPage.Init: the script marks only item 0 of freshly written items as active. The model builds the flags with the same single-selection routine a click uses; in freshly written markup the two give the same flags.
- Runbooks.RunbookPage.RenderList and Runbooks.RunbookPage.SelectFirst: the same holds for the runbook list, whose script only adds the active class to the first freshly written item.
- A JSON `null` field is not told apart from a missing one; both are `None`. Template interpolation would print `null` rather than `undefined` for a null runbook title in the search text.
