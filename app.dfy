/**
 * The incident pages: the incidents table and the incident detail view.
 * Loaded incidents are an input sequence, rendered output is a record per
 * row or card whose fields hold the escaped text the markup would carry,
 * and the locale-dependent `formatWhen` is a caller-supplied function.
 */
module App {
  import opened Js
  import Html

  /** This page's copy of the escape routine; it is `Html.Escape`. */
  function EscapeHtml(x: Option<string>): (r: string)
    ensures r == Html.Escape(x)
    ensures Html.NoRaw(r)
    ensures x.None? ==> r == ""
  {
    Html.EscapeChain(Coalesce(x, ""))
  }

  /** The fallback texts hold no special character, so they are shown as
      written. */
  lemma PlainDefaults()
    ensures EscapeHtml(Some("Low")) == "Low" && EscapeHtml(Some("-")) == "-"
    ensures EscapeHtml(Some("Resolved")) == "Resolved" && EscapeHtml(Some("—")) == "—"
    ensures EscapeHtml(Some("Evidence")) == "Evidence" && EscapeHtml(Some("")) == ""
  {
    assert Html.NoSpecial("Low") && Html.NoSpecial("-") && Html.NoSpecial("Resolved");
    assert Html.NoSpecial("—") && Html.NoSpecial("Evidence") && Html.NoSpecial("");
  }

  /** `severityPill(sev)`: the lowercased severity picks the pill class. */
  function SeverityPill(sev: Option<string>): (r: string)
    ensures r == "bad" <==> Lower(Or(sev, "")) == "high"
    ensures r == "warn" <==> Lower(Or(sev, "")) == "medium"
    ensures r == "good" <==> Lower(Or(sev, "")) != "high" && Lower(Or(sev, "")) != "medium"
  {
    var s := Lower(Or(sev, ""));
    if s == "high" then "bad" else if s == "medium" then "warn" else "good"
  }

  /** The pill does not depend on letter case, and a missing severity is
      "good". */
  lemma SeverityPillIgnoresCase(a: string, b: string)
    requires Lower(a) == Lower(b)
    ensures SeverityPill(Some(a)) == SeverityPill(Some(b))
    ensures SeverityPill(None) == "good"
  {
    assert Lower("") == "";
    if a == "" || b == "" {
      assert Lower(a) == "" && Lower(b) == "";
    }
  }

  lemma SeverityPillExamples()
    ensures SeverityPill(Some("High")) == "bad"
    ensures SeverityPill(Some("MEDIUM")) == "warn"
    ensures SeverityPill(Some("Low")) == "good"
  {
    assert Lower("High") == "high";
    assert Lower("MEDIUM") == "medium";
    assert Lower("Low") == "low";
  }

  /* ---------------------------------------------------------------------
     Incident records
     --------------------------------------------------------------------- */

  datatype Grafana = Grafana(url: Option<string>)

  datatype TimelineEntry = TimelineEntry(time: Option<string>, event: Option<string>)

  datatype EvidenceItem = EvidenceItem(path: Option<string>, caption: Option<string>)

  datatype Incident = Incident(
    id: Option<string>, title: Option<string>, severity: Option<string>,
    customerSymptom: Option<string>, where: Option<string>,
    start: Option<string>, end: Option<string>,
    status: Option<string>, impact: Option<string>,
    findings: Option<string>, mitigation: Option<string>,
    grafana: Option<Grafana>,
    timeline: ListField<TimelineEntry>, evidence: ListField<EvidenceItem>)

  /** `formatWhen(start, end)`, supplied by the caller. */
  type When = (Option<string>, Option<string>) -> string

  /** `getLiveViewLink(inc)`: the Grafana URL when there is one. */
  function GetLiveViewLink(inc: Incident): (r: Option<string>)
    ensures r.Some? <==> inc.grafana.Some? && Truthy(inc.grafana.value.url)
    ensures r.Some? ==> r == inc.grafana.value.url
  {
    if inc.grafana.Some? && Truthy(inc.grafana.value.url) then inc.grafana.value.url else None
  }

  /* ---------------------------------------------------------------------
     The incidents table
     --------------------------------------------------------------------- */

  /** The texts the table row and the detail card both show for an
      incident: the pill, the severity, the title, the customer symptom,
      where and when. */
  datatype Headline = Headline(pill: string, severity: string, title: string,
                               symptom: string, where: string, when: string)

  /** The headline of an incident with its fallbacks: severity "Low",
      the id when there is no title, "-" for where. */
  function HeadlineOf(inc: Incident, formatWhen: When): (h: Headline)
    ensures h.pill == SeverityPill(inc.severity)
    ensures !Truthy(inc.severity) ==> h.severity == "Low"
    ensures Truthy(inc.severity) ==> h.severity == EscapeHtml(inc.severity)
    ensures !Truthy(inc.title) ==> h.title == EscapeHtml(inc.id)
    ensures Truthy(inc.title) ==> h.title == EscapeHtml(inc.title)
    ensures !Truthy(inc.where) ==> h.where == "-"
    ensures Truthy(inc.where) ==> h.where == EscapeHtml(inc.where)
    ensures h.symptom == EscapeHtml(Some(Or(inc.customerSymptom, "")))
    ensures h.when == EscapeHtml(Some(formatWhen(inc.start, inc.end)))
    ensures Html.NoRaw(h.severity) && Html.NoRaw(h.title) && Html.NoRaw(h.symptom)
      && Html.NoRaw(h.where) && Html.NoRaw(h.when)
  {
    PlainDefaults();
    Headline(
      SeverityPill(inc.severity),
      EscapeHtml(Some(Or(inc.severity, "Low"))),
      EscapeHtml(OrElse(inc.title, inc.id)),
      EscapeHtml(Some(Or(inc.customerSymptom, ""))),
      EscapeHtml(Some(Or(inc.where, "-"))),
      EscapeHtml(Some(formatWhen(inc.start, inc.end))))
  }

  /** One row of the table; `id` is the incident the Open link points at. */
  datatype IncidentRow = IncidentRow(head: Headline, id: Option<string>)

  function RowOf(inc: Incident, formatWhen: When): IncidentRow {
    IncidentRow(HeadlineOf(inc, formatWhen), inc.id)
  }

  /** `renderIncidentsTable()`: the table body is cleared and one row is
      appended per incident, in order, each linking to its own incident. */
  method RenderIncidentsTable(incidents: seq<Incident>, formatWhen: When) returns (rows: seq<IncidentRow>)
    ensures |rows| == |incidents|
    ensures forall i :: 0 <= i < |incidents| ==>
      rows[i].head == HeadlineOf(incidents[i], formatWhen) && rows[i].id == incidents[i].id
  {
    rows := Html.AppendRows(incidents, (inc: Incident) => RowOf(inc, formatWhen));
  }

  /* ---------------------------------------------------------------------
     The detail view
     --------------------------------------------------------------------- */

  datatype TimelineRow = TimelineRow(time: string, event: string)

  function TimelineRowOf(t: TimelineEntry): TimelineRow {
    TimelineRow(EscapeHtml(t.time), EscapeHtml(t.event))
  }

  /** `buildTimelineHtml(inc)`: `None` is the empty string returned when
      the timeline is missing, not an array or empty; otherwise the card
      holds one row per entry, in order. */
  function BuildTimeline(inc: Incident): (r: Option<seq<TimelineRow>>)
    ensures r.None? <==> !NonEmptyArray(inc.timeline)
    ensures r.Some? ==> (|r.value| == |inc.timeline.items|
      && forall i :: 0 <= i < |r.value| ==> r.value[i] == TimelineRowOf(inc.timeline.items[i]))
  {
    if !NonEmptyArray(inc.timeline) then None
    else Some(seq(|inc.timeline.items|, i requires 0 <= i < |inc.timeline.items| => TimelineRowOf(inc.timeline.items[i])))
  }

  datatype EvidenceCard = EvidenceCard(src: string, alt: string, cap: string)

  /** One evidence image: the caption doubles as the alt text, with
      "Evidence" when there is none. */
  function EvidenceCardOf(ev: EvidenceItem): (c: EvidenceCard)
    ensures !Truthy(ev.caption) ==> c.alt == "Evidence" && c.cap == ""
    ensures Truthy(ev.caption) ==> c.alt == c.cap && c.cap == EscapeHtml(ev.caption)
    ensures c.src == EscapeHtml(ev.path)
  {
    PlainDefaults();
    EvidenceCard(EscapeHtml(ev.path), EscapeHtml(Some(Or(ev.caption, "Evidence"))),
                 EscapeHtml(Some(Or(ev.caption, ""))))
  }

  const NoEvidence: string := "No evidence images linked yet."

  /** The evidence gallery: the notice when there is no non-empty array of
      evidence, otherwise one card per item. */
  function EvidenceView(inc: Incident): (l: Html.Listing<EvidenceCard>)
    ensures l.Notice? <==> !NonEmptyArray(inc.evidence)
    ensures l.Notice? ==> l.text == NoEvidence
    ensures l.Rows? ==> (|l.rows| == |inc.evidence.items|
      && forall i :: 0 <= i < |l.rows| ==> l.rows[i] == EvidenceCardOf(inc.evidence.items[i]))
  {
    Html.ListingOf(ArrayItems(inc.evidence), EvidenceCardOf, NoEvidence)
  }

  /** The outcome block of the detail card: status, impact, what was
      found and what was done. */
  datatype Outcome = Outcome(status: string, impact: string, findings: string, mitigation: string)

  /** The outcome with its fallbacks: "Resolved", "-", "—" and "—". */
  function OutcomeOf(inc: Incident): (o: Outcome)
    ensures !Truthy(inc.status) ==> o.status == "Resolved"
    ensures Truthy(inc.status) ==> o.status == EscapeHtml(inc.status)
    ensures !Truthy(inc.impact) ==> o.impact == "-"
    ensures Truthy(inc.impact) ==> o.impact == EscapeHtml(inc.impact)
    ensures !Truthy(inc.findings) ==> o.findings == "—"
    ensures Truthy(inc.findings) ==> o.findings == EscapeHtml(inc.findings)
    ensures !Truthy(inc.mitigation) ==> o.mitigation == "—"
    ensures Truthy(inc.mitigation) ==> o.mitigation == EscapeHtml(inc.mitigation)
    ensures Html.NoRaw(o.status) && Html.NoRaw(o.impact) && Html.NoRaw(o.findings) && Html.NoRaw(o.mitigation)
  {
    PlainDefaults();
    Outcome(EscapeHtml(Some(Or(inc.status, "Resolved"))), EscapeHtml(Some(Or(inc.impact, "-"))),
            EscapeHtml(Some(Or(inc.findings, "—"))), EscapeHtml(Some(Or(inc.mitigation, "—"))))
  }

  /** The detail card.  `live` is the escaped Live View link, or `None`
      for the "not configured" notice. */
  datatype IncidentCard = IncidentCard(
    head: Headline, outcome: Outcome, live: Option<string>,
    timeline: Option<seq<TimelineRow>>, evidence: Html.Listing<EvidenceCard>)

  /** The card rendered for a found incident: the same headline as its
      table row, the outcome block, the Live View link exactly when
      there is one (decoding back to the URL), the timeline and the
      evidence gallery. */
  function CardOf(inc: Incident, formatWhen: When): (c: IncidentCard)
    ensures c.head == RowOf(inc, formatWhen).head
    ensures c.live.Some? <==> GetLiveViewLink(inc).Some?
    ensures c.live.Some? ==> Html.NoRaw(c.live.value) && Html.Unescape(c.live.value) == GetLiveViewLink(inc).value
    ensures c.timeline == BuildTimeline(inc) && c.evidence == EvidenceView(inc)
  {
    var live := GetLiveViewLink(inc);
    Html.EscapeRoundTrip(live);
    IncidentCard(HeadlineOf(inc, formatWhen), OutcomeOf(inc),
                 if live.Some? then Some(EscapeHtml(live)) else None,
                 BuildTimeline(inc), EvidenceView(inc))
  }

  /** `incidents.find(x => x.id === id)`, as the index of the first match. */
  function FindIndex(incidents: seq<Incident>, id: string): (r: Option<nat>)
    ensures r.Some? ==> (r.value < |incidents| && incidents[r.value].id == Some(id)
      && forall j :: 0 <= j < r.value ==> incidents[j].id != Some(id))
    ensures r.None? ==> forall j :: 0 <= j < |incidents| ==> incidents[j].id != Some(id)
    decreases |incidents|
  {
    if |incidents| == 0 then None
    else if incidents[0].id == Some(id) then Some(0)
    else
      var rest := FindIndex(incidents[1..], id);
      if rest.None? then None else Some(rest.value + 1)
  }

  /** What `renderIncidentDetail` puts in the page. */
  datatype Detail = Nothing | NotFound(message: string) | Found(card: IncidentCard)

  /** `renderIncidentDetail()` for the query parameter `query`: nothing
      without an id, the not-found card when no incident has that id, and
      otherwise the first incident with that id. */
  function RenderIncidentDetail(query: Option<string>, incidents: seq<Incident>, formatWhen: When): (d: Detail)
    ensures d.Nothing? <==> !Truthy(query)
    ensures d.NotFound? <==> Truthy(query) && forall j :: 0 <= j < |incidents| ==> incidents[j].id != query
    ensures d.NotFound? ==> d.message == "No incident with id: " + EscapeHtml(query)
    ensures d.Found? ==> (Truthy(query) && FindIndex(incidents, query.value).Some?
      && d.card == CardOf(incidents[FindIndex(incidents, query.value).value], formatWhen))
  {
    if !Truthy(query) then Nothing
    else
      var found := FindIndex(incidents, query.value);
      if found.None? then NotFound("No incident with id: " + EscapeHtml(query))
      else Found(CardOf(incidents[found.value], formatWhen))
  }

  /** A found card is the card of the first incident whose id is the
      query. */
  lemma DetailIsFirstMatch(query: Option<string>, incidents: seq<Incident>, formatWhen: When)
    ensures RenderIncidentDetail(query, incidents, formatWhen).Found? ==>
      exists j :: (0 <= j < |incidents| && incidents[j].id == query
        && (forall k :: 0 <= k < j ==> incidents[k].id != query)
        && RenderIncidentDetail(query, incidents, formatWhen).card == CardOf(incidents[j], formatWhen))
  {
    var d := RenderIncidentDetail(query, incidents, formatWhen);
    if d.Found? {
      var j := FindIndex(incidents, query.value).value;
      assert incidents[j].id == query;
    }
  }

  /** The first of two incidents with the same id is the one shown. */
  lemma FirstMatchWins(a: Incident, b: Incident, id: string, formatWhen: When)
    requires id != "" && a.id == Some(id) && b.id == Some(id)
    ensures RenderIncidentDetail(Some(id), [a, b], formatWhen) == Found(CardOf(a, formatWhen))
    ensures RenderIncidentDetail(Some(id), [b, a], formatWhen) == Found(CardOf(b, formatWhen))
  {
  }

  /** An id no incident carries gives the not-found card with that id. */
  lemma UnknownIdNotFound(incidents: seq<Incident>, formatWhen: When)
    requires forall j :: 0 <= j < |incidents| ==> incidents[j].id != Some("INC-999")
    ensures RenderIncidentDetail(Some("INC-999"), incidents, formatWhen)
      == NotFound("No incident with id: " + "INC-999")
  {
    var q := Some("INC-999");
    assert Html.NoSpecial("INC-999");
    assert EscapeHtml(q) == "INC-999";
    assert FindIndex(incidents, "INC-999").None?;
  }
}
