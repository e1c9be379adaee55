/**
 * The incident-workflow stepper: a cursor over eight fixed steps, a
 * generated demo scenario, and an auto-play mode that advances on a timer.
 *
 * `Core` is the stepper's own state (cursor, playing flag, scenario and the
 * one pending tick) and `GoTo`, `Next`, `Run` and `Tick` are its
 * transitions as functions; the class `Stepper` is the page's module-level
 * state object with its display slots, whose methods are proved to follow
 * those functions.  Random draws are caller-supplied numbers in [0, 1), the
 * timer is the pending tick together with its delay, and the clock reading
 * that stamps each artifact is a parameter.
 */
module Workflow {
  import opened Js

  /* ---------------------------------------------------------------------
     The fixed steps
     --------------------------------------------------------------------- */

  datatype Step = Step(name: string, desc: string, tag: string)

  const Steps: seq<Step> := [
    Step("Alert", "Signal detected and validated", "Firing"),
    Step("Data Collection", "Metrics • Logs • Traces captured", "Evidence"),
    Step("Incident", "Severity, scope, and ownership set", "SEV"),
    Step("Ticketing", "Work item created + tasks assigned", "Ticket"),
    Step("Runbook", "Standard mitigation applied", "Stabilize"),
    Step("RCA", "Cause + contributing factors documented", "Draft"),
    Step("Ticket Close", "Validation complete + closure notes", "Resolved"),
    Step("Executive Summary", "Business-facing summary generated", "Executive")
  ]

  /** `STEPS.length - 1`, the index of the last step. */
  const Last: int := 7

  /* ---------------------------------------------------------------------
     Small text helpers: pad and bullets
     --------------------------------------------------------------------- */

  /** `String(n).padStart(2, "0")`. */
  function Pad(n: nat): (s: string)
    ensures AllDigits(s) && ParseDecimal(s) == n
    ensures n < 100 ==> |s| == 2
    ensures n >= 10 ==> s == Decimal(n)
  {
    DecimalRoundTrip(n);
    var d := Decimal(n);
    if n < 10 then
      assert ("0" + d)[1..] == d;
      PadZero(d);
      "0" + d
    else
      assert Pow10(1) == 10 && Pow10(2) == 100;
      if n < 100 then DecimalWidth(n, 2); d else d
  }

  /** A leading zero does not change the number digits stand for. */
  lemma {:induction false} PadZero(d: string)
    requires AllDigits(d)
    ensures AllDigits("0" + d) && ParseDecimal("0" + d) == ParseDecimal(d)
    decreases |d|
  {
    if d != [] {
      var p := d[..|d| - 1];
      PadZero(p);
      assert ("0" + d)[..|"0" + d| - 1] == "0" + p;
    }
  }

  /** The indent `bullets` uses by default. */
  const Indent: string := "  - "

  /** `bullets(lines, indent)`: each line prefixed with the indent, joined
      by newlines. */
  function Bullets(lines: seq<string>, indent: string): string {
    Join(seq(|lines|, i requires 0 <= i < |lines| => indent + lines[i]), "\n")
  }

  /** Splitting the bullets at newlines gives one indent-prefixed line per
      input line, in order (for lines that hold no newline themselves). */
  lemma BulletsLines(lines: seq<string>, indent: string)
    requires |lines| >= 1
    requires Free(indent, '\n') && forall k :: 0 <= k < |lines| ==> Free(lines[k], '\n')
    ensures var out := Split(Bullets(lines, indent), '\n');
      |out| == |lines| && forall k :: 0 <= k < |lines| ==> out[k] == indent + lines[k]
  {
    var parts := seq(|lines|, i requires 0 <= i < |lines| => indent + lines[i]);
    forall k | 0 <= k < |parts|
      ensures Free(parts[k], '\n')
    {
      assert Free(lines[k], '\n');
      forall j | 0 <= j < |parts[k]|
        ensures parts[k][j] != '\n'
      {
        if j >= |indent| {
          assert parts[k][j] == lines[k][j - |indent|];
        }
      }
    }
    SplitJoin(parts, '\n');
  }

  /* ---------------------------------------------------------------------
     Random draws
     --------------------------------------------------------------------- */

  /** A value of `Math.random()`. */
  predicate Unit(r: real) {
    0.0 <= r < 1.0
  }

  /** The draws `makeScenario` makes: the category (used only for
      "random"), the three ID numbers, the service and the region. */
  datatype Rolls = Rolls(kind: real, incident: real, ticket: real, alert: real, service: real, region: real)

  predicate ValidRolls(rs: Rolls) {
    Unit(rs.kind) && Unit(rs.incident) && Unit(rs.ticket) && Unit(rs.alert)
    && Unit(rs.service) && Unit(rs.region)
  }

  /** `Math.floor(lo + r * width)`: a whole number in [lo, lo + width). */
  function ScaledFloor(r: real, lo: nat, width: nat): (n: nat)
    requires Unit(r) && width > 0
    ensures lo <= n < lo + width
  {
    assert 0.0 <= r * width as real;
    assert (1.0 - r) * (width as real) > 0.0;
    (lo as real + r * width as real).Floor
  }

  /** `randPick(arr)`: `arr[Math.floor(Math.random() * arr.length)]`. */
  function Pick<T>(arr: seq<T>, r: real): (x: T)
    requires |arr| > 0 && Unit(r)
    ensures x in arr
  {
    arr[ScaledFloor(r, 0, |arr|)]
  }

  /* ---------------------------------------------------------------------
     The scenario catalogue
     --------------------------------------------------------------------- */

  datatype Entry = Entry(
    title: string, sev: string, cause: string,
    symptoms: seq<string>, actions: seq<string>, prevention: seq<string>,
    runbook: string)

  /** `Object.keys(scenarios)`, in declaration order. */
  const Types: seq<string> := ["network", "deploy", "dns", "cert", "db"]

  /** The catalogue: each category's label, severity and runbook as the
      page has them.  The prose of the cause, the symptoms, the actions and
      the prevention items is not reproduced; each keeps its place and the
      number of items, with a text naming the slot. */
  const Catalogue: map<string, Entry> := map[
    "network" := Entry(
      "Network flap (BGP/packet loss)", "SEV-1", "network cause",
      ["network symptom 1", "network symptom 2", "network symptom 3"],
      ["network action 1", "network action 2", "network action 3"],
      ["network prevention 1", "network prevention 2", "network prevention 3"],
      "Network Instability / Packet Loss"),
    "deploy" := Entry(
      "Bad deploy (pool exhaustion)", "SEV-2", "deploy cause",
      ["deploy symptom 1", "deploy symptom 2", "deploy symptom 3"],
      ["deploy action 1", "deploy action 2", "deploy action 3"],
      ["deploy prevention 1", "deploy prevention 2", "deploy prevention 3"],
      "Latency + 5xx after Deploy"),
    "dns" := Entry(
      "DNS latency spike", "SEV-2", "dns cause",
      ["dns symptom 1", "dns symptom 2", "dns symptom 3"],
      ["dns action 1", "dns action 2", "dns action 3"],
      ["dns prevention 1", "dns prevention 2", "dns prevention 3"],
      "Dependency Latency / DNS"),
    "cert" := Entry(
      "Certificate/PKI mismatch", "SEV-1", "cert cause",
      ["cert symptom 1", "cert symptom 2", "cert symptom 3"],
      ["cert action 1", "cert action 2", "cert action 3"],
      ["cert prevention 1", "cert prevention 2", "cert prevention 3"],
      "TLS / Certificate Failure"),
    "db" := Entry(
      "Database slow query / lock", "SEV-2", "db cause",
      ["db symptom 1", "db symptom 2", "db symptom 3"],
      ["db action 1", "db action 2", "db action 3"],
      ["db prevention 1", "db prevention 2", "db prevention 3"],
      "DB Saturation / Lock Contention")
  ]

  const ServicesByType: map<string, seq<string>> := map[
    "network" := ["edge-gateway", "customer-portal", "metrics-pipeline"],
    "deploy" := ["payments-api", "auth-service", "customer-portal"],
    "dns" := ["auth-service", "customer-portal", "edge-gateway"],
    "cert" := ["edge-gateway", "auth-service"],
    "db" := ["payments-api", "customer-portal"]
  ]

  /** The pool used when `servicesByType` has no entry for the type. */
  const FallbackServices: seq<string> := ["payments-api", "customer-portal", "edge-gateway", "auth-service"]

  const Regions: seq<string> := ["us-east-1", "us-east-2", "us-west-2", "eu-central-1"]

  /** The category list, the catalogue and the service pools name the same
      five categories, and every pool is non-empty. */
  lemma CatalogueShape()
    ensures forall t :: t in Catalogue <==> t in Types
    ensures forall t :: t in ServicesByType <==> t in Types
    ensures forall t :: t in ServicesByType ==> |ServicesByType[t]| > 0
  {
  }

  /** `servicesByType[type] || fallback`. */
  function ServicePool(kind: string): (pool: seq<string>)
    ensures |pool| > 0
    ensures kind in ServicesByType ==> pool == ServicesByType[kind]
  {
    if kind in ServicesByType then ServicesByType[kind] else FallbackServices
  }

  datatype Scenario = Scenario(
    kind: string, title: string, sev: string, cause: string,
    symptoms: seq<string>, actions: seq<string>, prevention: seq<string>,
    runbook: string, incident: string, ticket: string, alert: string,
    service: string, region: string)

  /** The category `makeScenario(type)` works with: a random one for
      "random", otherwise the one asked for. */
  function ChosenType(picked: string, rolls: Rolls): (t: string)
    requires ValidRolls(rolls)
    ensures picked == "random" ==> t in Types
    ensures picked != "random" ==> t == picked
  {
    if picked == "random" then Pick(Types, rolls.kind) else picked
  }

  /** An ID written as `prefix` followed by exactly `width` digits, the
      first of which is not 0. */
  predicate IdShaped(s: string, prefix: string, width: nat) {
    && |s| == |prefix| + width
    && s[..|prefix|] == prefix
    && AllDigits(s[|prefix|..])
    && (width > 0 ==> s[|prefix|] != '0')
  }

  /** `${prefix}${Math.floor(lo + Math.random() * width)}`. */
  function IdText(prefix: string, r: real, lo: nat, width: nat): (s: string)
    requires Unit(r) && width > 0
  {
    prefix + Decimal(ScaledFloor(r, lo, width))
  }

  /** The three IDs: INC- with a number in [1000, 9999], CHG- with one in
      [100000, 999999], ALRT- with one in [10000, 99999]; each therefore
      has exactly four, six and five digits. */
  lemma IdNumbers(rolls: Rolls)
    requires ValidRolls(rolls)
    ensures 1000 <= ScaledFloor(rolls.incident, 1000, 9000) <= 9999
    ensures 100000 <= ScaledFloor(rolls.ticket, 100000, 900000) <= 999999
    ensures 10000 <= ScaledFloor(rolls.alert, 10000, 90000) <= 99999
    ensures IdShaped(IdText("INC-", rolls.incident, 1000, 9000), "INC-", 4)
    ensures IdShaped(IdText("CHG-", rolls.ticket, 100000, 900000), "CHG-", 6)
    ensures IdShaped(IdText("ALRT-", rolls.alert, 10000, 90000), "ALRT-", 5)
  {
    assert Pow10(3) == 1000 by { assert Pow10(2) == 100 by { assert Pow10(1) == 10; } }
    assert Pow10(6) == 1000000 by { assert Pow10(5) == 100000 by { assert Pow10(4) == 10000; } }
    IdShapedFrom("INC-", ScaledFloor(rolls.incident, 1000, 9000), 4);
    IdShapedFrom("CHG-", ScaledFloor(rolls.ticket, 100000, 900000), 6);
    IdShapedFrom("ALRT-", ScaledFloor(rolls.alert, 10000, 90000), 5);
  }

  lemma IdShapedFrom(prefix: string, n: nat, width: nat)
    requires 1 <= width && Pow10(width - 1) <= n < Pow10(width)
    ensures IdShaped(prefix + Decimal(n), prefix, width)
  {
    DecimalWidth(n, width);
    DecimalRoundTrip(n);
    var s := prefix + Decimal(n);
    assert s[..|prefix|] == prefix && s[|prefix|..] == Decimal(n);
  }

  /** A scenario as `makeScenario` produces it for category `kind`. */
  ghost predicate ScenarioOf(sc: Scenario, kind: string) {
    && kind in Catalogue
    && sc.kind == kind
    && var e := Catalogue[kind];
    && sc.title == e.title && sc.sev == e.sev && sc.cause == e.cause
    && sc.symptoms == e.symptoms && sc.actions == e.actions && sc.prevention == e.prevention
    && sc.runbook == e.runbook
    && sc.service in ServicesByType[kind]
    && sc.region in Regions
    && IdShaped(sc.incident, "INC-", 4)
    && IdShaped(sc.ticket, "CHG-", 6)
    && IdShaped(sc.alert, "ALRT-", 5)
  }

  /** `makeScenario(picked)`.  `None` is the TypeError the page raises when
      the category is not in the catalogue: `scenarios[type]` is undefined
      and reading its label throws, so the fallback service pool is never
      used for a scenario that is returned.  "random" always succeeds. */
  function MakeScenario(picked: string, rolls: Rolls): (r: Option<Scenario>)
    requires ValidRolls(rolls)
    ensures r.Some? <==> ChosenType(picked, rolls) in Catalogue
    ensures picked == "random" ==> r.Some?
    ensures r.Some? ==> ScenarioOf(r.value, ChosenType(picked, rolls))
  {
    var kind := ChosenType(picked, rolls);
    var incident := IdText("INC-", rolls.incident, 1000, 9000);
    var ticket := IdText("CHG-", rolls.ticket, 100000, 900000);
    var alert := IdText("ALRT-", rolls.alert, 10000, 90000);
    var service := Pick(ServicePool(kind), rolls.service);
    var region := Pick(Regions, rolls.region);
    IdNumbers(rolls);
    if kind !in Catalogue then None
    else
      var e := Catalogue[kind];
      Some(Scenario(kind, e.title, e.sev, e.cause, e.symptoms, e.actions, e.prevention,
                    e.runbook, incident, ticket, alert, service, region))
  }

  /* ---------------------------------------------------------------------
     Step marks
     --------------------------------------------------------------------- */

  datatype Mark = Done | Active | Pending

  /** How step `i` is shown while the cursor is at `idx`. */
  function MarkOf(i: int, idx: int): Mark {
    if i < idx then Done else if i == idx then Active else Pending
  }

  /** A map node's two flags. */
  datatype NodeView = NodeView(active: bool, done: bool)

  /** A timeline chip's two flags and its label. */
  datatype ChipView = ChipView(active: bool, done: bool, text: string)

  function ChipLabel(m: Mark): string {
    match m
    case Done => "— done"
    case Active => "— active"
    case Pending => "— pending"
  }

  function NodeFor(i: int, idx: int): NodeView {
    NodeView(i == idx, i < idx)
  }

  function ChipFor(i: int, idx: int): ChipView {
    ChipView(i == idx, i < idx, ChipLabel(MarkOf(i, idx)))
  }

  /** How many of the first `n` steps carry mark `m`. */
  function CountMarks(n: nat, idx: int, m: Mark): nat {
    if n == 0 then 0 else CountMarks(n - 1, idx, m) + (if MarkOf(n - 1, idx) == m then 1 else 0)
  }

  /** With the cursor at `idx`, the steps before it are done, at most one
      step is active (exactly one when the cursor is on a step, none when
      it is at -1), and the rest are pending. */
  lemma {:induction false} MarkCounts(n: nat, idx: int)
    ensures CountMarks(n, idx, Done) == if idx <= 0 then 0 else if idx < n then idx else n
    ensures CountMarks(n, idx, Active) == if 0 <= idx < n then 1 else 0
    ensures CountMarks(n, idx, Pending) == n - CountMarks(n, idx, Done) - CountMarks(n, idx, Active)
  {
    if n > 0 {
      MarkCounts(n - 1, idx);
    }
  }

  /** A step's flags and its label agree with its mark. */
  lemma ChipAgreesWithNode(i: int, idx: int)
    ensures ChipFor(i, idx).active == NodeFor(i, idx).active
    ensures ChipFor(i, idx).done == NodeFor(i, idx).done
    ensures NodeFor(i, idx).active <==> MarkOf(i, idx) == Active
    ensures NodeFor(i, idx).done <==> MarkOf(i, idx) == Done
  {
  }

  /* ---------------------------------------------------------------------
     Artifacts
     --------------------------------------------------------------------- */

  datatype Artifact = Artifact(title: string, sub: string, body: string)

  /** What `artifactFor` writes and returns: the status text, the phase
      label and the artifact. */
  datatype Shown = Shown(status: string, phase: string, art: Artifact)

  function Lines(ls: seq<string>): string {
    Join(ls, "\n")
  }

  /** The status text `artifactFor` shows for step `idx`. */
  function StatusFor(idx: int): string {
    match idx
    case 0 => "Alert Firing"
    case 1 => "Collecting Evidence"
    case 2 => "Incident Open"
    case 3 => "Ticket Created"
    case 4 => "Runbook Executing"
    case 5 => "Drafting RCA"
    case 6 => "Closing Ticket"
    case 7 => "Executive Summary Ready"
    case _ => ""
  }

  function AlertLog(sc: Scenario): string {
    Lines([
      "ALERT FIRING: High Latency / Elevated Errors",
      "AlertId: " + sc.alert,
      "Service: " + sc.service,
      "Region: " + sc.region,
      "Severity: " + sc.sev,
      "",
      "Observed symptoms:",
      Bullets(sc.symptoms, Indent),
      "",
      "Auto-actions:",
      "  - open dashboards",
      "  - start evidence collection",
      "  - create incident shell"])
  }

  function EvidenceLog(sc: Scenario): string {
    Lines([
      "Evidence Collector started",
      "Targets:",
      "  - Metrics: latency, error rate, saturation",
      "  - Logs: 5m extract (top errors)",
      "  - Traces: sampled spans (slow endpoints)",
      "  - Network: loss/route events (if applicable)",
      "",
      "Collected artifacts:",
      "  - metric_snapshot.json",
      "  - log_extract.txt",
      "  - trace_summary.json",
      "  - topology_notes.md",
      "",
      "Notable:",
      "  - spike aligns with " + sc.region + " peak",
      "  - top endpoint: /api/v1/checkout",
      "  - error codes: 502/504 increased"])
  }

  function IncidentLog(sc: Scenario): string {
    Lines([
      "INCIDENT CREATED",
      "Incident: " + sc.incident,
      "Severity: " + sc.sev,
      "Service: " + sc.service,
      "Scope:",
      "  - Primary: " + sc.region,
      "  - Secondary: downstream retries increasing load",
      "",
      "Assignments:",
      "  - Incident Commander: On-call SRE",
      "  - Comms: Secondary on-call",
      "  - SME: Service owner (" + sc.service + ")",
      "",
      "Working hypothesis:",
      "  - " + sc.cause])
  }

  function TicketLog(sc: Scenario): string {
    Lines([
      "TICKETING",
      "Primary Ticket: " + sc.ticket,
      "Linked:",
      "  - Incident: " + sc.incident,
      "  - Alert: " + sc.alert,
      "",
      "Tasks:",
      "  - [ ] Validate blast radius & customer impact",
      "  - [ ] Apply runbook mitigation",
      "  - [ ] Identify root cause",
      "  - [ ] Permanent fix + guardrails",
      "  - [ ] Monitoring updates (SLO-aligned)",
      "",
      "Stakeholder note:",
      "  - Checkout latency + intermittent failures"])
  }

  function RunbookLog(sc: Scenario): string {
    Lines([
      "RUNBOOK: " + sc.runbook,
      "1) Confirm symptoms (p95/p99 + error rate)",
      "2) Check saturation (CPU/mem/pools)",
      "3) Identify top offenders (endpoints/deps)",
      "4) Mitigate:",
      "   - scale out replicas",
      "   - rate-limit bursts / circuit breaker",
      "   - rollback last deploy (if needed)",
      "5) Validate recovery against SLO",
      "",
      "Mitigation actions taken (demo):",
      Bullets(sc.actions, Indent)])
  }

  function RcaLog(sc: Scenario): string {
    Lines([
      "ROOT CAUSE ANALYSIS (DRAFT)",
      "Primary Cause:",
      "  - " + sc.cause,
      "",
      "Customer-facing symptoms:",
      Bullets(sc.symptoms, Indent),
      "",
      "Mitigation actions taken:",
      Bullets(sc.actions, Indent),
      "",
      "Prevention / follow-ups:",
      Bullets(sc.prevention, Indent),
      "",
      "Notes:",
      "  - evidence auto-attached",
      "  - post-incident review scheduled"])
  }

  function CloseLog(sc: Scenario): string {
    Lines([
      "CLOSEOUT",
      "Validation:",
      "  - p95 latency: 310ms (below 450ms)",
      "  - error rate: 0.3% (below 1.0%)",
      "  - no ongoing instability detected",
      "",
      "Resolution:",
      "  - mitigation applied + monitoring updated",
      "  - follow-up tasks assigned",
      "",
      "Closure Notes:",
      "  - stakeholder comms sent",
      "  - RCA owner + due date set"])
  }

  function SummaryLog(sc: Scenario): string {
    Lines([
      "EXECUTIVE SUMMARY",
      "Incident: " + sc.incident + " | Severity: " + sc.sev,
      "Service: " + sc.service + " | Region: " + sc.region,
      "",
      "Impact:",
      "  - Elevated latency and intermittent failures",
      "  - Peak window affected; customer experience degraded",
      "",
      "Detection:",
      "  - Automated alert (" + sc.alert + ")",
      "  - Evidence package generated and attached",
      "",
      "Root Cause:",
      "  - " + sc.cause,
      "",
      "Mitigation:",
      Bullets(sc.actions, Indent),
      "",
      "Prevention:",
      "  - " + Join(sc.prevention, "; ")])
  }

  /** The artifact title of each step. */
  function TitleFor(idx: int, sc: Scenario): string {
    match idx
    case 0 => "Scenario: " + sc.title
    case 1 => "Data Collection"
    case 2 => "Incident Created (" + sc.incident + ")"
    case 3 => "Ticket Generated (" + sc.ticket + ")"
    case 4 => "Runbook Opened"
    case 5 => "RCA Created (Draft)"
    case 6 => "Ticket Closed"
    case 7 => "Executive Summary"
    case _ => ""
  }

  /** The artifact subtitle of each step. */
  function SubFor(idx: int, sc: Scenario): string {
    match idx
    case 0 => "Service: " + sc.service + " • Region: " + sc.region + " • " + sc.sev
    case 1 => "Gathering metrics, logs, traces, and topology context."
    case 2 => "Assigning severity, scope, and ownership."
    case 3 => "Creating work items for remediation + follow-up."
    case 4 => "Standard response to stabilize service."
    case 5 => "Root cause, contributing factors, and prevention plan."
    case 6 => "Recovery validated and closure notes recorded."
    case 7 => "Business-facing summary of impact and prevention."
    case _ => ""
  }

  /** The switch of `artifactFor`: each step's title, subtitle and log
      behind the clock reading; the default case is all empty. */
  function ArtFor(idx: int, sc: Scenario, t: string): Artifact {
    if 0 <= idx < |Steps| then Artifact(TitleFor(idx, sc), SubFor(idx, sc), "[" + t + "] " + LogFor(idx, sc))
    else Artifact("", "", "")
  }


  /** `artifactFor(idx, sc)` with the clock reading `t`.  `None` is the
      TypeError raised by `STEPS[idx].name` for an index with no step,
      which happens before the switch, so its default branch is never
      reached. */
  function ArtifactFor(idx: int, sc: Scenario, t: string): (r: Option<Shown>)
    ensures r.Some? <==> 0 <= idx < |Steps|
    ensures r.Some? ==> r.value.phase == Steps[idx].name && r.value.status == StatusFor(idx)
    ensures r.Some? ==> r.value.art == ArtFor(idx, sc, t)
  {
    if !(0 <= idx < |Steps|) then None
    else Some(Shown(StatusFor(idx), Steps[idx].name, ArtFor(idx, sc, t)))
  }

  /** Each step's status text is its own. */
  lemma StatusesDistinct(i: int, j: int)
    requires 0 <= i < |Steps| && 0 <= j < |Steps| && i != j
    ensures StatusFor(i) != StatusFor(j) && StatusFor(i) != ""
  {
  }

  /** The log text of step `idx`'s artifact, after the clock stamp. */
  function LogFor(idx: int, sc: Scenario): string {
    match idx
    case 0 => AlertLog(sc)
    case 1 => EvidenceLog(sc)
    case 2 => IncidentLog(sc)
    case 3 => TicketLog(sc)
    case 4 => RunbookLog(sc)
    case 5 => RcaLog(sc)
    case 6 => CloseLog(sc)
    case 7 => SummaryLog(sc)
    case _ => ""
  }

  /** Every step's artifact has a title, and its body is the step's log
      behind the clock reading in brackets: the stamp is the only part of
      an artifact that depends on the time. */
  lemma ArtifactStamped(idx: int, sc: Scenario, t: string)
    requires 0 <= idx < |Steps|
    ensures var a := ArtifactFor(idx, sc, t).value.art;
      a.title != "" && a.body == "[" + t + "] " + LogFor(idx, sc) && "[" + t + "] " <= a.body
  {
    TitleNonEmpty(idx, sc);
    assert "[" + t + "] " <= "[" + t + "] " + LogFor(idx, sc);
  }

  /** Two readings of the clock give the same artifact but for the stamp. */
  lemma OnlyStampVaries(idx: int, sc: Scenario, t1: string, t2: string)
    requires 0 <= idx < |Steps|
    ensures ArtFor(idx, sc, t1).title == ArtFor(idx, sc, t2).title
    ensures ArtFor(idx, sc, t1).sub == ArtFor(idx, sc, t2).sub
    ensures ArtFor(idx, sc, t1).body[|t1| + 3..] == ArtFor(idx, sc, t2).body[|t2| + 3..]
  {
    var l := LogFor(idx, sc);
    assert ("[" + t1 + "] " + l)[|t1| + 3..] == l;
    assert ("[" + t2 + "] " + l)[|t2| + 3..] == l;
  }

  lemma TitleNonEmpty(idx: int, sc: Scenario)
    requires 0 <= idx < |Steps|
    ensures TitleFor(idx, sc) != ""
  {
    match idx
    case 0 => assert |TitleFor(0, sc)| >= |"Scenario: "|;
    case 2 => assert |TitleFor(2, sc)| >= |"Incident Created ("|;
    case 3 => assert |TitleFor(3, sc)| >= |"Ticket Generated ("|;
    case _ =>
  }

  /* ---------------------------------------------------------------------
     The state machine
     --------------------------------------------------------------------- */

  /** `{idx, playing, scenario, timer}`; `timer` is the one pending tick and
      the delay it was scheduled with. */
  datatype Core = Core(idx: int, playing: bool, scenario: Option<Scenario>, timer: Option<nat>)

  /** The state after `resetAll`. */
  const Idle: Core := Core(-1, false, None, None)

  /** The delay before the first tick of a demo run. */
  const FirstDelay: nat := 900

  /** The delay scheduled after a tick has advanced to step `idx`: longer
      after the data-collection and runbook steps. */
  function DelayAfter(idx: int): (d: nat)
    ensures d == 1100 <==> idx == 1
    ensures d == 1200 <==> idx == 4
    ensures d == 950 <==> idx != 1 && idx != 4
  {
    if idx == 1 then 1100 else if idx == 4 then 1200 else 950
  }

  /** The shape every reachable state has: the cursor is -1 or on a step,
      and a scenario exists once the cursor is on a step. */
  predicate WellFormed(c: Core) {
    -1 <= c.idx <= Last && (c.idx >= 0 ==> c.scenario.Some?)
  }

  /** The stepper invariant: well-formed, and playing only while a tick is
      pending and the last step has not been reached. */
  predicate Inv(c: Core) {
    WellFormed(c) && (c.playing ==> 0 <= c.idx < Last && c.timer.Some?)
  }

  /** `Math.max(0, Math.min(i, STEPS.length - 1))`. */
  function Clamp(i: int): (j: int)
    ensures 0 <= j <= Last
    ensures 0 <= i <= Last ==> j == i
    ensures i < 0 ==> j == 0
    ensures i > Last ==> j == Last
  {
    if i < 0 then 0 else if i > Last then Last else i
  }

  /** The cursor moves to step `i` clamped; reaching the last step stops
      playing. */
  function Place(c: Core, i: int): (r: Core)
    ensures r.idx == Clamp(i)
    ensures r.playing == (c.playing && r.idx != Last)
    ensures r.scenario == c.scenario && r.timer == c.timer
  {
    var j := Clamp(i);
    c.(idx := j, playing := if j == Last then false else c.playing)
  }

  /** A transition's resulting state, and whether it ended by throwing. */
  datatype Outcome = Outcome(after: Core, threw: bool)

  /** `goToStep(i)`: make a scenario first when there is none, then move
      the cursor. */
  function GoTo(c: Core, i: int, picked: string, rolls: Rolls): (o: Outcome)
    requires ValidRolls(rolls)
    ensures o.threw <==> c.scenario.None? && MakeScenario(picked, rolls).None?
    ensures o.threw ==> o.after == c
    ensures !o.threw ==> o.after.idx == Clamp(i) && o.after.scenario.Some?
    ensures !o.threw && c.scenario.Some? ==> o.after.scenario == c.scenario
    ensures !o.threw && c.scenario.None? ==> o.after.scenario == MakeScenario(picked, rolls)
    ensures !o.threw ==> (o.after.idx == Last ==> !o.after.playing)
    ensures !o.threw ==> (o.after.idx != Last ==> o.after.playing == c.playing)
    ensures o.after.timer == c.timer
    ensures Inv(c) ==> Inv(o.after)
  {
    if c.scenario.Some? then Outcome(Place(c, i), false)
    else
      var made := MakeScenario(picked, rolls);
      if made.None? then Outcome(c, true) else Outcome(Place(c.(scenario := made), i), false)
  }

  /** `nextStep()`: nothing at the last step, otherwise one step on. */
  function Next(c: Core, picked: string, rolls: Rolls): (o: Outcome)
    requires ValidRolls(rolls)
    ensures c.idx >= Last ==> o == Outcome(c, false)
    ensures WellFormed(c) && c.idx < Last && !o.threw ==> o.after.idx == c.idx + 1
    ensures WellFormed(c) && c.idx >= 0 ==> !o.threw
    ensures Inv(c) ==> Inv(o.after)
  {
    if c.idx >= Last then Outcome(c, false) else GoTo(c, c.idx + 1, picked, rolls)
  }

  /** `runDemo()`: nothing while playing; otherwise cancel the pending tick,
      make a fresh scenario, show the first step, play, and schedule the
      first tick. */
  function Run(c: Core, picked: string, rolls: Rolls): (o: Outcome)
    requires ValidRolls(rolls)
    ensures c.playing ==> o == Outcome(c, false)
    ensures !c.playing ==> (o.threw <==> MakeScenario(picked, rolls).None?)
    ensures !c.playing && o.threw ==> o.after == c.(timer := None)
    ensures !c.playing && !o.threw ==>
      o.after == Core(0, true, MakeScenario(picked, rolls), Some(FirstDelay))
    ensures Inv(c) ==> Inv(o.after)
  {
    if c.playing then Outcome(c, false)
    else
      var made := MakeScenario(picked, rolls);
      if made.None? then Outcome(c.(timer := None), true)
      else
        var started := c.(timer := None, scenario := made, idx := -1, playing := true);
        Outcome(Place(started, 0).(timer := Some(FirstDelay)), false)
  }

  /** The `tick` callback, run when the pending tick fires: it stops when
      playing has been turned off or the last step is reached, and
      otherwise advances one step and schedules the next tick. */
  function AfterTick(c: Core): (r: Core)
    requires c.timer.Some? && (c.playing ==> c.scenario.Some?)
    ensures !c.playing ==> r == c.(timer := None)
    ensures c.playing && c.idx >= Last ==> r == c.(playing := false, timer := None)
    ensures c.playing && c.idx < Last ==>
      r.idx == Clamp(c.idx + 1) && r.timer == Some(DelayAfter(r.idx)) && r.scenario == c.scenario
    ensures r.timer.None? <==> !c.playing || c.idx >= Last
    ensures Inv(c) ==> Inv(r)
  {
    var fired := c.(timer := None);
    if !fired.playing then fired
    else if fired.idx >= Last then fired.(playing := false)
    else
      var moved := Place(fired, fired.idx + 1);
      moved.(timer := Some(DelayAfter(moved.idx)))
  }

  /** `nextStep()` inside `tick`: with a scenario present it is `Place`,
      so `Tick` does what the page's callback does. */
  lemma TickIsNext(c: Core, picked: string, rolls: Rolls)
    requires ValidRolls(rolls) && Inv(c) && c.timer.Some? && c.playing
    ensures var o := Next(c.(timer := None), picked, rolls);
      !o.threw && AfterTick(c) == o.after.(timer := Some(DelayAfter(o.after.idx)))
  {
  }

  /** The states reached by letting `n` pending ticks fire. */
  function Ticks(c: Core, n: nat): (r: Core)
    requires Inv(c)
    ensures Inv(r)
    decreases n
  {
    if n == 0 || c.timer.None? then c else Ticks(AfterTick(c), n - 1)
  }

  /** While playing, each tick moves the cursor one step on and leaves a
      tick pending; playing stops exactly when the last step is reached. */
  lemma {:induction false} AutoAdvance(c: Core, n: nat)
    requires Inv(c) && c.playing && c.idx + n <= Last
    ensures Ticks(c, n).idx == c.idx + n
    ensures Ticks(c, n).scenario == c.scenario
    ensures Ticks(c, n).timer.Some?
    ensures Ticks(c, n).playing <==> c.idx + n < Last
    decreases n
  {
    if n > 0 {
      var d := AfterTick(c);
      if n > 1 {
        AutoAdvance(d, n - 1);
      }
    }
  }

  /** A demo run started from a stopped stepper shows every step in turn:
      eight ticks later the cursor is on the last step, playing has stopped
      and no tick is pending. */
  lemma DemoRunsToCompletion(c: Core, picked: string, rolls: Rolls)
    requires ValidRolls(rolls) && Inv(c) && !c.playing && MakeScenario(picked, rolls).Some?
    ensures var s := Run(c, picked, rolls).after;
      Ticks(s, 8) == Core(Last, false, MakeScenario(picked, rolls), None)
  {
    var s := Run(c, picked, rolls).after;
    AutoAdvance(s, 7);
    TicksThen(s, 7, 1);
  }

  lemma {:induction false} TicksThen(c: Core, a: nat, b: nat)
    requires Inv(c)
    ensures Ticks(c, a + b) == Ticks(Ticks(c, a), b)
    decreases a
  {
    if a > 0 && c.timer.Some? {
      TicksThen(AfterTick(c), a - 1, b);
    } else if a > 0 {
      assert Ticks(c, a + b) == c && Ticks(c, a) == c;
    }
  }

  /* ---------------------------------------------------------------------
     The page's state object and its display slots
     --------------------------------------------------------------------- */

  /** The seven meta slots `applyMeta` fills. */
  datatype Meta = Meta(incident: string, ticket: string, service: string, region: string,
                       sev: string, alert: string, scenario: string)

  /** `applyMeta(sc)`. */
  function MetaOf(sc: Scenario): Meta {
    Meta(sc.incident, sc.ticket, sc.service, sc.region, sc.sev, sc.alert, sc.title)
  }

  /** The meta slots after a reset. */
  const NoMeta: Meta := Meta("—", "—", "—", "—", "—", "—", "—")

  /** The artifact panel after a reset. */
  const ReadyArtifact: Artifact := Artifact("Ready", "Press “Run Demo” to generate a scenario.", "")

  /** What the artifact panel shows: the ready message, or the artifact of
      a step of a scenario stamped with a clock reading. */
  datatype Panel = ReadyPanel | StepPanel(idx: int, sc: Scenario, stamp: string)

  /** The panel's title, subtitle and body. */
  function PanelText(p: Panel): Artifact {
    match p
    case ReadyPanel => ReadyArtifact
    case StepPanel(i, sc, t) => ArtFor(i, sc, t)
  }

  /** A step's panel shows the artifact `artifactFor` returns for it, with
      the phase label and status text it writes. */
  lemma PanelIsArtifactFor(idx: int, sc: Scenario, t: string)
    requires 0 <= idx < |Steps|
    ensures ArtifactFor(idx, sc, t) == Some(Shown(StatusFor(idx), Steps[idx].name, PanelText(StepPanel(idx, sc, t))))
  {
  }

  class Stepper {
    var idx: int
    var playing: bool
    var scenario: Option<Scenario>
    var timer: Option<nat>

    /** The scenario selector's value ("random" when the page has none). */
    var picked: string

    var statusText: string
    var miniPhase: string
    var panel: Panel
    var meta: Meta

    /** The eight map nodes and the eight timeline chips. */
    const nodes: array<NodeView>
    const chips: array<ChipView>

    function State(): Core
      reads this
    {
      Core(idx, playing, scenario, timer)
    }

    ghost predicate Valid()
      reads this
    {
      nodes.Length == |Steps| && chips.Length == |Steps| && WellFormed(State())
    }

    /** Every node and chip shows its mark for cursor `k`. */
    ghost predicate Marked(k: int)
      reads this, nodes, chips
    {
      && nodes.Length == |Steps| && chips.Length == |Steps|
      && (forall i :: 0 <= i < |Steps| ==> nodes[i] == NodeFor(i, k))
      && (forall i :: 0 <= i < |Steps| ==> chips[i] == ChipFor(i, k))
    }

    /** The display shows the current step of the current scenario, stamped
        with `now`. */
    ghost predicate Shows(now: string)
      reads this, nodes, chips
    {
      && 0 <= idx <= Last && scenario.Some?
      && Marked(idx)
      && miniPhase == Steps[idx].name
      && panel == StepPanel(idx, scenario.value, now)
      && statusText == (if idx == Last then "Complete" else StatusFor(idx))
    }

    /** The display after a reset. */
    ghost predicate ShowsIdle()
      reads this, nodes, chips
    {
      && statusText == "Idle" && miniPhase == "—"
      && panel == ReadyPanel && meta == NoMeta
      && Marked(-1)
    }

    /** Page load: `buildMap()`, `buildTimeline()`, `resetAll()`. */
    constructor (picked: string)
      ensures Valid() && State() == Idle && Inv(State())
      ensures this.picked == picked && ShowsIdle()
      ensures fresh(nodes) && fresh(chips)
    {
      this.picked := picked;
      nodes := new NodeView[|Steps|](_ => NodeView(false, false));
      chips := new ChipView[|Steps|](_ => ChipView(false, false, "— pending"));
      idx, playing, scenario, timer := -1, false, None, None;
      statusText, miniPhase, panel, meta := "", "", ReadyPanel, NoMeta;
      new;
      ResetAll();
    }

    /** A change of the scenario selector. */
    method ChooseScenario(value: string)
      modifies this`picked
      ensures picked == value
    {
      picked := value;
    }

    /** `markStep(k)`: set every node's and chip's flags and label. */
    method MarkStep(k: int)
      requires nodes.Length == |Steps| && chips.Length == |Steps|
      modifies nodes, chips
      ensures Marked(k)
    {
      var i := 0;
      while i < nodes.Length
        invariant 0 <= i <= nodes.Length
        invariant forall j :: 0 <= j < i ==> nodes[j] == NodeFor(j, k)
      {
        nodes[i] := NodeFor(i, k);
        i := i + 1;
      }
      i := 0;
      while i < chips.Length
        invariant 0 <= i <= chips.Length
        invariant forall j :: 0 <= j < i ==> chips[j] == ChipFor(j, k)
        invariant forall j :: 0 <= j < nodes.Length ==> nodes[j] == NodeFor(j, k)
      {
        chips[i] := ChipFor(i, k);
        i := i + 1;
      }
    }

    /** The part of `goToStep` after the scenario check: move the cursor,
        mark the steps, show the artifact, and stop playing at the end. */
    method Advance(nextIdx: int, now: string)
      requires Valid() && scenario.Some?
      modifies this, nodes, chips
      ensures Valid() && State() == Place(old(State()), nextIdx)
      ensures Shows(now)
      ensures picked == old(picked) && meta == old(meta)
    {
      idx := Clamp(nextIdx);
      miniPhase := Steps[idx].name;
      statusText := StatusFor(idx);
      panel := StepPanel(idx, scenario.value, now);
      if idx == Last {
        playing := false;
        statusText := "Complete";
      }
      MarkStep(idx);
    }

    /** `goToStep(nextIdx)`. */
    method GoToStep(nextIdx: int, rolls: Rolls, now: string) returns (threw: bool)
      requires Valid() && ValidRolls(rolls)
      modifies this, nodes, chips
      ensures Valid() && picked == old(picked)
      ensures Outcome(State(), threw) == GoTo(old(State()), nextIdx, picked, rolls)
      ensures threw ==> unchanged(this) && unchanged(nodes) && unchanged(chips)
      ensures !threw ==> Shows(now)
      ensures !threw ==> meta == if old(scenario).None? then MetaOf(scenario.value) else old(meta)
    {
      if scenario.None? {
        var made := MakeScenario(picked, rolls);
        if made.None? {
          return true;
        }
        scenario := made;
        meta := MetaOf(made.value);
      }
      Advance(nextIdx, now);
      threw := false;
    }

    /** `nextStep()`. */
    method NextStep(rolls: Rolls, now: string) returns (threw: bool)
      requires Valid() && ValidRolls(rolls)
      modifies this, nodes, chips
      ensures Valid() && picked == old(picked)
      ensures Outcome(State(), threw) == Next(old(State()), picked, rolls)
      ensures old(idx) >= Last || threw ==> unchanged(this) && unchanged(nodes) && unchanged(chips)
      ensures old(idx) < Last && !threw ==> Shows(now)
      ensures old(idx) < Last && !threw ==>
        meta == if old(scenario).None? then MetaOf(scenario.value) else old(meta)
    {
      if idx >= Last {
        return false;
      }
      threw := GoToStep(idx + 1, rolls, now);
    }

    /** A click on map node `i`: make a scenario first if there is none,
        then `goToStep(i)`. */
    method ClickNode(i: int, rolls: Rolls, now: string) returns (threw: bool)
      requires Valid() && ValidRolls(rolls) && 0 <= i < |Steps|
      modifies this, nodes, chips
      ensures Valid() && picked == old(picked)
      ensures Outcome(State(), threw) == GoTo(old(State()), i, picked, rolls)
      ensures threw ==> unchanged(this) && unchanged(nodes) && unchanged(chips)
      ensures !threw ==> Shows(now)
      ensures !threw ==> meta == if old(scenario).None? then MetaOf(scenario.value) else old(meta)
    {
      if scenario.None? {
        var made := MakeScenario(picked, rolls);
        if made.None? {
          return true;
        }
        scenario := made;
        meta := MetaOf(made.value);
        statusText := "Guided Mode";
      }
      threw := GoToStep(i, rolls, now);
    }

    /** A click on "Next": make a scenario first if there is none, then
        `nextStep()`. */
    method ClickNext(rolls: Rolls, now: string) returns (threw: bool)
      requires Valid() && ValidRolls(rolls)
      modifies this, nodes, chips
      ensures Valid() && picked == old(picked)
      ensures Outcome(State(), threw) == Next(old(State()), picked, rolls)
      ensures old(idx) >= Last || threw ==> unchanged(this) && unchanged(nodes) && unchanged(chips)
      ensures old(idx) < Last && !threw ==> Shows(now)
      ensures old(idx) < Last && !threw ==>
        meta == if old(scenario).None? then MetaOf(scenario.value) else old(meta)
    {
      if scenario.None? {
        var made := MakeScenario(picked, rolls);
        if made.None? {
          return true;
        }
        scenario := made;
        meta := MetaOf(made.value);
        statusText := "Guided Mode";
      }
      threw := NextStep(rolls, now);
    }

    /** `runDemo()`. */
    method RunDemo(rolls: Rolls, now: string) returns (threw: bool)
      requires Valid() && ValidRolls(rolls)
      modifies this, nodes, chips
      ensures Valid() && picked == old(picked)
      ensures Outcome(State(), threw) == Run(old(State()), picked, rolls)
      ensures old(playing) ==> unchanged(this) && unchanged(nodes) && unchanged(chips)
      ensures !old(playing) && threw ==> (unchanged(nodes) && unchanged(chips)
        && statusText == old(statusText) && miniPhase == old(miniPhase)
        && panel == old(panel) && meta == old(meta))
      ensures !old(playing) && !threw ==> Shows(now) && meta == MetaOf(scenario.value)
    {
      if playing {
        return false;
      }
      timer := None;
      var made := MakeScenario(picked, rolls);
      if made.None? {
        return true;
      }
      scenario := made;
      meta := MetaOf(made.value);
      idx := -1;
      playing := true;
      statusText := "Running Demo";
      var _ := GoToStep(0, rolls, now);
      timer := Some(FirstDelay);
      threw := false;
    }

    /** The pending tick fires.  The scenario exists while playing, so the
        `nextStep()` it calls moves the cursor without making one. */
    method Tick(now: string)
      requires Valid() && timer.Some? && (playing ==> scenario.Some?)
      modifies this, nodes, chips
      ensures Valid() && picked == old(picked) && meta == old(meta)
      ensures State() == AfterTick(old(State()))
      ensures old(playing) && old(idx) < Last ==> Shows(now)
      ensures !old(playing) || old(idx) >= Last ==> (unchanged(nodes) && unchanged(chips)
        && statusText == old(statusText) && miniPhase == old(miniPhase) && panel == old(panel))
    {
      timer := None;
      if !playing {
        return;
      }
      if idx >= Last {
        playing := false;
        return;
      }
      Advance(idx + 1, now);
      timer := Some(DelayAfter(idx));
    }

    /** `resetAll()`. */
    method ResetAll()
      requires nodes.Length == |Steps| && chips.Length == |Steps|
      modifies this, nodes, chips
      ensures Valid() && State() == Idle && picked == old(picked)
      ensures ShowsIdle()
    {
      timer := None;
      playing := false;
      idx := -1;
      scenario := None;
      statusText := "Idle";
      miniPhase := "—";
      panel := ReadyPanel;
      meta := NoMeta;
      MarkStep(-1);
    }
  }
}
