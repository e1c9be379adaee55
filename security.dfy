/**
 * The security page: the threat table, the KPI cards, the decision log and
 * the clickable response flow.  Loaded JSON is an input value; KPI values
 * are the text `String(value)` would give.
 */
module Security {
  import opened Js
  import Html

  /** This page's copy of the escape routine; it is `Html.Escape`. */
  function EscapeHtml(x: Option<string>): (r: string)
    ensures r == Html.Escape(x)
    ensures Html.NoRaw(r)
    ensures x.None? ==> r == ""
  {
    Html.EscapeChain(Coalesce(x, ""))
  }

  const RiskBase: string := "sec-risk-pill"

  /** `riskClass(risk)`: the lowercased risk picks a modifier class. */
  function RiskClass(risk: Option<string>): (r: string)
    ensures r == "sec-risk-pill r-accepted" <==> Lower(Or(risk, "")) == "accepted"
    ensures r == "sec-risk-pill r-monitored" <==> Lower(Or(risk, "")) == "monitored"
    ensures r == "sec-risk-pill r-mitigated" <==> Lower(Or(risk, "")) == "mitigated"
    ensures r == RiskBase <==> Lower(Or(risk, "")) !in {"accepted", "monitored", "mitigated"}
  {
    var s := Lower(Or(risk, ""));
    if s == "accepted" then "sec-risk-pill r-accepted"
    else if s == "monitored" then "sec-risk-pill r-monitored"
    else if s == "mitigated" then "sec-risk-pill r-mitigated"
    else RiskBase
  }

  /** The class does not depend on letter case. */
  lemma RiskClassIgnoresCase(a: string, b: string)
    requires Lower(a) == Lower(b)
    ensures RiskClass(Some(a)) == RiskClass(Some(b))
  {
    assert Lower("") == "";
    if a == "" || b == "" {
      assert Lower(a) == "" && Lower(b) == "";
    }
  }

  lemma RiskClassExamples()
    ensures RiskClass(Some("Accepted")) == "sec-risk-pill r-accepted"
    ensures RiskClass(Some("MITIGATED")) == "sec-risk-pill r-mitigated"
    ensures RiskClass(Some("High")) == RiskBase
    ensures RiskClass(None) == RiskBase
  {
    assert Lower("Accepted") == "accepted";
    assert Lower("MITIGATED") == "mitigated";
    assert Lower("High") == "high";
    assert Lower("") == "";
  }

  /** The risk fallback "Monitored" gets the monitored class. */
  lemma MonitoredClass()
    ensures RiskClass(Some("Monitored")) == "sec-risk-pill r-monitored"
  {
    assert Lower("Monitored") == "monitored";
  }

  /** The fallback texts hold no special character, so they are shown as
      written. */
  lemma PlainDefaults()
    ensures EscapeHtml(Some("Monitored")) == "Monitored"
    ensures EscapeHtml(Some("Decision")) == "Decision" && EscapeHtml(Some("Tradeoff")) == "Tradeoff"
  {
    assert Html.NoSpecial("Monitored") && Html.NoSpecial("Decision") && Html.NoSpecial("Tradeoff");
  }

  /* ---------------------------------------------------------------------
     Threats
     --------------------------------------------------------------------- */

  datatype Threat = Threat(vector: Option<string>, threat: Option<string>,
                           risk: Option<string>, status: Option<string>)

  /** One table row: the risk pill's class and the four cell texts. */
  datatype ThreatRow = ThreatRow(vector: string, threat: string, riskClass: string,
                                 risk: string, status: string)

  /** The row for one threat; a missing risk or status reads "Monitored",
      and the pill's class is computed from the risk after that fallback. */
  function ThreatRowOf(t: Threat): (row: ThreatRow)
    ensures !Truthy(t.risk) ==> row.risk == "Monitored" && row.riskClass == "sec-risk-pill r-monitored"
    ensures !Truthy(t.status) ==> row.status == "Monitored"
    ensures Truthy(t.risk) ==> row.risk == EscapeHtml(t.risk) && row.riskClass == RiskClass(t.risk)
    ensures Truthy(t.status) ==> row.status == EscapeHtml(t.status)
    ensures !Truthy(t.vector) ==> row.vector == ""
    ensures !Truthy(t.threat) ==> row.threat == ""
    ensures Truthy(t.vector) ==> row.vector == EscapeHtml(t.vector)
    ensures Truthy(t.threat) ==> row.threat == EscapeHtml(t.threat)
    ensures Html.NoRaw(row.vector) && Html.NoRaw(row.threat)
  {
    PlainDefaults();
    MonitoredClass();
    var status := Or(t.status, "Monitored");
    var risk := Or(t.risk, "Monitored");
    ThreatRow(EscapeHtml(Some(Or(t.vector, ""))), EscapeHtml(Some(Or(t.threat, ""))),
              RiskClass(Some(risk)), EscapeHtml(Some(risk)), EscapeHtml(Some(status)))
  }

  const NoThreats: string := "No threat data found."

  /** `renderThreats(rows)`: the single placeholder row when the data is
      not an array or is empty, otherwise one row per threat, in order. */
  function RenderThreats(rows: ListField<Threat>): (l: Html.Listing<ThreatRow>)
    ensures l.Notice? <==> !NonEmptyArray(rows)
    ensures l.Notice? ==> l.text == NoThreats
    ensures l.Rows? ==> (|l.rows| == |rows.items|
      && forall i :: 0 <= i < |l.rows| ==> l.rows[i] == ThreatRowOf(rows.items[i]))
  {
    Html.ListingOf(ArrayItems(rows), ThreatRowOf, NoThreats)
  }

  /* ---------------------------------------------------------------------
     KPI cards
     --------------------------------------------------------------------- */

  datatype Metrics = Metrics(reqPerMin: Option<string>, rate4xx: Option<string>,
                             anomalyScore: Option<string>, signalConfidence: Option<string>)

  /** One KPI: its label, its value and its subtitle. */
  datatype Kpi = Kpi(caption: string, value: Option<string>, sub: string)

  /** The three text slots of one card. */
  datatype KpiCard = KpiCard(caption: string, value: string, sub: string)

  /** The four KPIs, in card order. */
  function Kpis(m: Metrics): (ks: seq<Kpi>)
    ensures |ks| == 4
    ensures ks[0].value == m.reqPerMin && ks[1].value == m.rate4xx
    ensures ks[2].value == m.anomalyScore && ks[3].value == m.signalConfidence
  {
    [Kpi("Req/min", m.reqPerMin, "baseline"),
     Kpi("4xx rate", m.rate4xx, "invalid requests"),
     Kpi("Anomaly score", m.anomalyScore, "burst detection"),
     Kpi("Signal confidence", m.signalConfidence, "noise filter")]
  }

  /** What a card shows for one KPI: a missing value shows "—", and any
      present value, even an empty one, is shown as it is. */
  function CardFor(k: Kpi): (c: KpiCard)
    ensures k.value.None? ==> c.value == "—"
    ensures k.value.Some? ==> c.value == k.value.value
    ensures c.caption == k.caption && c.sub == k.sub
  {
    KpiCard(k.caption, Coalesce(k.value, "—"), k.sub)
  }

  /** `renderKPIs(metrics)`: the first `min(4, cards)` cards are written
      with the KPIs in order and any further card is left alone. */
  method RenderKpis(m: Metrics, cards: array<KpiCard>)
    modifies cards
    ensures forall i :: 0 <= i < cards.Length && i < 4 ==> cards[i] == CardFor(Kpis(m)[i])
    ensures forall i :: 4 <= i < cards.Length ==> cards[i] == old(cards[i])
  {
    var kpis := Kpis(m);
    var i := 0;
    while i < |kpis|
      invariant 0 <= i <= |kpis|
      invariant forall j :: 0 <= j < cards.Length && j < i ==> cards[j] == CardFor(kpis[j])
      invariant forall j :: i <= j < cards.Length ==> cards[j] == old(cards[j])
    {
      if i < cards.Length {
        cards[i] := CardFor(kpis[i]);
      }
      i := i + 1;
    }
  }

  /* ---------------------------------------------------------------------
     Decisions
     --------------------------------------------------------------------- */

  datatype Decision = Decision(decision: Option<string>, tag: Option<string>, date: Option<string>,
                               reason: Option<string>, tradeoff: Option<string>, mitigation: Option<string>)

  /** One decision card; `tag` and `date` are the two parts of its meta line. */
  datatype DecisionCard = DecisionCard(title: string, tag: string, date: string,
                                       reason: string, tradeoff: string, mitigation: string)

  /** The card for one decision, with "Decision" and "Tradeoff" as the
      title and tag fallbacks. */
  function DecisionCardOf(d: Decision): (c: DecisionCard)
    ensures !Truthy(d.decision) ==> c.title == "Decision"
    ensures !Truthy(d.tag) ==> c.tag == "Tradeoff"
    ensures Truthy(d.decision) ==> c.title == EscapeHtml(d.decision)
    ensures Truthy(d.tag) ==> c.tag == EscapeHtml(d.tag)
    ensures !Truthy(d.date) ==> c.date == ""
    ensures !Truthy(d.reason) ==> c.reason == ""
    ensures !Truthy(d.tradeoff) ==> c.tradeoff == ""
    ensures !Truthy(d.mitigation) ==> c.mitigation == ""
    ensures Truthy(d.date) ==> c.date == EscapeHtml(d.date)
    ensures Truthy(d.reason) ==> c.reason == EscapeHtml(d.reason)
    ensures Truthy(d.tradeoff) ==> c.tradeoff == EscapeHtml(d.tradeoff)
    ensures Truthy(d.mitigation) ==> c.mitigation == EscapeHtml(d.mitigation)
    ensures Html.NoRaw(c.date) && Html.NoRaw(c.reason) && Html.NoRaw(c.tradeoff) && Html.NoRaw(c.mitigation)
  {
    PlainDefaults();
    DecisionCard(EscapeHtml(Some(Or(d.decision, "Decision"))), EscapeHtml(Some(Or(d.tag, "Tradeoff"))),
                 EscapeHtml(Some(Or(d.date, ""))), EscapeHtml(Some(Or(d.reason, ""))),
                 EscapeHtml(Some(Or(d.tradeoff, ""))), EscapeHtml(Some(Or(d.mitigation, ""))))
  }

  const NoDecisions: string := "No decision log found."

  /** `renderDecisions(items)`: the placeholder when the data is not an
      array or is empty, otherwise one card per decision, in order. */
  function RenderDecisions(items: ListField<Decision>): (l: Html.Listing<DecisionCard>)
    ensures l.Notice? <==> !NonEmptyArray(items)
    ensures l.Notice? ==> l.text == NoDecisions
    ensures l.Rows? ==> (|l.rows| == |items.items|
      && forall i :: 0 <= i < |l.rows| ==> l.rows[i] == DecisionCardOf(items.items[i]))
  {
    Html.ListingOf(ArrayItems(items), DecisionCardOf, NoDecisions)
  }

  /* ---------------------------------------------------------------------
     The response flow
     --------------------------------------------------------------------- */

  /** The title of each step of the `FLOW` table. */
  const FlowTitles: map<string, string> := map[
    "alert" := "Alert", "triage" := "Triage", "validate" := "Validate",
    "contain" := "Contain", "learn" := "Learn"]

  /** The detail panel after a click: the step's escaped title and the key
      of the step whose body text it shows. */
  datatype FlowDetail = FlowDetail(title: string, step: string)

  /** The page's flow nodes, their active flags and the detail panel. */
  class FlowPanel {
    /** Each node's `data-step`, if it has one. */
    const steps: seq<Option<string>>
    const active: array<bool>
    /** `None` while the panel still shows the page's own markup. */
    var detail: Option<FlowDetail>

    constructor (steps: seq<Option<string>>, initial: seq<bool>)
      requires |initial| == |steps|
      ensures this.steps == steps && active[..] == initial && detail.None?
      ensures fresh(active)
    {
      this.steps := steps;
      active := new bool[|initial|](i requires 0 <= i < |initial| => initial[i]);
      detail := None;
    }

    /** A click on node `k`: every node loses the active class, node `k`
        gains it, and a known step replaces the detail panel; an unknown or
        missing step leaves the panel as it was. */
    method Click(k: int)
      requires 0 <= k < active.Length && active.Length == |steps|
      modifies this, active
      ensures Html.OnlyActive(active[..], k)
      ensures Html.CountActive(active[..]) == 1
      ensures steps[k].Some? && steps[k].value in FlowTitles ==>
        detail == Some(FlowDetail(EscapeHtml(Some(FlowTitles[steps[k].value])), steps[k].value))
      ensures !(steps[k].Some? && steps[k].value in FlowTitles) ==> detail == old(detail)
    {
      var i := 0;
      while i < active.Length
        invariant 0 <= i <= active.Length
        invariant forall j :: 0 <= j < i ==> !active[j]
        invariant detail == old(detail)
      {
        active[i] := false;
        i := i + 1;
      }
      active[k] := true;
      Html.OnlyActiveCount(active[..], k);
      var step := steps[k];
      if step.None? || step.value !in FlowTitles {
        return;
      }
      detail := Some(FlowDetail(EscapeHtml(Some(FlowTitles[step.value])), step.value));
    }
  }
}
