/**
 * The status page: the banner, the update times, the customer message,
 * the service cards and the update feed, written into fixed page slots by
 * `render`.  The loaded status document is an input value.
 */
module Status {
  import opened Js
  import Html

  /** This page's copy of the escape routine; it is `Html.Escape`. */
  function Esc(x: Option<string>): (r: string)
    ensures r == Html.Escape(x)
    ensures Html.NoRaw(r)
    ensures x.None? ==> r == ""
  {
    Html.EscapeChain(Coalesce(x, ""))
  }

  /** `dotClass(status)`: the lowercased status picks the dot colour;
      anything but operational or degraded, a missing status included, is
      red. */
  function DotClass(status: Option<string>): (r: string)
    ensures r == "dot-green" <==> Lower(Or(status, "")) == "operational"
    ensures r == "dot-yellow" <==> Lower(Or(status, "")) == "degraded"
    ensures r == "dot-red" <==> Lower(Or(status, "")) != "operational" && Lower(Or(status, "")) != "degraded"
  {
    var s := Lower(Or(status, ""));
    if s == "operational" then "dot-green" else if s == "degraded" then "dot-yellow" else "dot-red"
  }

  /** `pillText(status)`, by the same rule. */
  function PillText(status: Option<string>): (r: string)
    ensures r == "All systems normal" <==> Lower(Or(status, "")) == "operational"
    ensures r == "Degraded performance" <==> Lower(Or(status, "")) == "degraded"
    ensures r == "Service disruption" <==> Lower(Or(status, "")) != "operational" && Lower(Or(status, "")) != "degraded"
  {
    var s := Lower(Or(status, ""));
    if s == "operational" then "All systems normal"
    else if s == "degraded" then "Degraded performance"
    else "Service disruption"
  }

  /** The dot and the pill text always tell the same story. */
  lemma DotAgreesWithPill(status: Option<string>)
    ensures DotClass(status) == "dot-green" <==> PillText(status) == "All systems normal"
    ensures DotClass(status) == "dot-yellow" <==> PillText(status) == "Degraded performance"
    ensures DotClass(status) == "dot-red" <==> PillText(status) == "Service disruption"
  {
  }

  /** Both mappings ignore letter case; a missing status is a disruption. */
  lemma StatusIgnoresCase(a: string, b: string)
    requires Lower(a) == Lower(b)
    ensures DotClass(Some(a)) == DotClass(Some(b)) && PillText(Some(a)) == PillText(Some(b))
    ensures DotClass(None) == "dot-red" && PillText(None) == "Service disruption"
  {
    assert Lower("") == "";
    if a == "" || b == "" {
      assert Lower(a) == "" && Lower(b) == "";
    }
  }

  lemma StatusExamples()
    ensures DotClass(Some("Operational")) == "dot-green"
    ensures DotClass(Some("DEGRADED")) == "dot-yellow"
    ensures DotClass(Some("outage")) == "dot-red"
  {
    assert Lower("Operational") == "operational";
    assert Lower("DEGRADED") == "degraded";
    assert Lower("outage") == "outage";
  }

  /** The fallback texts hold no special character, so they are shown as
      written. */
  lemma PlainDefaults()
    ensures Esc(Some("Status update")) == "Status update"
    ensures Esc(Some("None")) == "None" && Esc(Some("Ops")) == "Ops"
    ensures Esc(Some("LOW")) == "LOW" && Upper("low") == "LOW"
  {
    UpperLow();
    assert Html.NoSpecial("Status update") && Html.NoSpecial("None");
    assert Html.NoSpecial("Ops") && Html.NoSpecial("LOW");
  }

  lemma UpperLow()
    ensures Upper("low") == "LOW"
  {
    var u := Upper("low");
    assert |u| == 3 && u[0] == 'L' && u[1] == 'O' && u[2] == 'W';
  }

  /** The pill texts are shown as written. */
  lemma PillPlain(status: Option<string>)
    ensures Esc(Some(PillText(status))) == PillText(status)
  {
    assert Html.NoSpecial("All systems normal") && Html.NoSpecial("Degraded performance");
    assert Html.NoSpecial("Service disruption");
  }

  /* ---------------------------------------------------------------------
     The status document
     --------------------------------------------------------------------- */

  datatype Banner = Banner(title: Option<string>, state: Option<string>, body: Option<string>)

  datatype Service = Service(name: Option<string>, status: Option<string>, summary: Option<string>,
                             impact: Option<string>, owner: Option<string>, link: Option<string>)

  datatype Update = Update(time: Option<string>, level: Option<string>, text: Option<string>)

  datatype StatusData = StatusData(
    banner: Option<Banner>, lastUpdated: Option<string>, nextUpdate: Option<string>,
    customerMessage: Option<string>, services: ListField<Service>, updates: ListField<Update>)

  /** `data.banner?.title`, `data.banner?.state` and `data.banner?.body`:
      missing when there is no banner. */
  function BannerTitle(data: StatusData): Option<string> {
    if data.banner.Some? then data.banner.value.title else None
  }

  function BannerState(data: StatusData): Option<string> {
    if data.banner.Some? then data.banner.value.state else None
  }

  function BannerBody(data: StatusData): Option<string> {
    if data.banner.Some? then data.banner.value.body else None
  }

  /* ---------------------------------------------------------------------
     Rendered slots
     --------------------------------------------------------------------- */

  datatype BannerView = BannerView(title: string, dot: string, pill: string, body: string)

  /** The banner: a missing title reads "Status update" and the dot and
      pill follow the banner's state. */
  function BannerOf(data: StatusData): (b: BannerView)
    ensures !Truthy(BannerTitle(data)) ==> b.title == "Status update"
    ensures !Truthy(BannerBody(data)) ==> b.body == ""
    ensures Truthy(BannerBody(data)) ==> b.body == Esc(BannerBody(data))
    ensures b.dot == DotClass(BannerState(data))
    ensures b.pill == PillText(BannerState(data))
    ensures Html.NoRaw(b.title) && Html.NoRaw(b.body)
  {
    PlainDefaults();
    var state := BannerState(data);
    var pill := PillText(state);
    PillPlain(state);
    BannerView(Esc(Some(Or(BannerTitle(data), "Status update"))), DotClass(state),
               Esc(Some(pill)), Esc(Some(Or(BannerBody(data), ""))))
  }

  /** A present banner title is shown escaped. */
  lemma BannerTitleShown(data: StatusData)
    ensures Truthy(BannerTitle(data)) ==> BannerOf(data).title == Esc(BannerTitle(data))
  {
  }

  /** The meta line for two time texts. */
  function MetaLine(last: string, next: string): string {
    "Last updated: " + last + " • Next update: " + next
  }

  /** The meta line: each missing time reads "—", and a present one is
      shown as given. */
  function MetaText(data: StatusData): (t: string)
    ensures !Truthy(data.lastUpdated) && !Truthy(data.nextUpdate) ==>
      t == "Last updated: — • Next update: —"
    ensures !Truthy(data.lastUpdated) ==> t == MetaLine("—", Or(data.nextUpdate, "—"))
    ensures !Truthy(data.nextUpdate) ==> t == MetaLine(Or(data.lastUpdated, "—"), "—")
    ensures Truthy(data.lastUpdated) && Truthy(data.nextUpdate) ==>
      t == MetaLine(data.lastUpdated.value, data.nextUpdate.value)
  {
    MetaLine(Or(data.lastUpdated, "—"), Or(data.nextUpdate, "—"))
  }

  datatype ServiceCard = ServiceCard(name: string, dot: string, status: string, summary: string,
                                     impact: string, owner: string, link: Option<string>)

  /** One service card: the status is shown upper-cased next to its dot,
      impact reads "None" and owner "Ops" when missing, and the Details
      link appears only when there is a link. */
  function ServiceCardOf(s: Service): (c: ServiceCard)
    ensures c.dot == DotClass(s.status)
    ensures c.status == Esc(Some(Upper(Or(s.status, ""))))
    ensures c.name == Esc(s.name)
    ensures !Truthy(s.summary) ==> c.summary == ""
    ensures Truthy(s.summary) ==> c.summary == Esc(s.summary)
    ensures !Truthy(s.impact) ==> c.impact == "None"
    ensures !Truthy(s.owner) ==> c.owner == "Ops"
    ensures Truthy(s.impact) ==> c.impact == Esc(s.impact)
    ensures Truthy(s.owner) ==> c.owner == Esc(s.owner)
    ensures c.link.Some? <==> Truthy(s.link)
    ensures c.link.Some? ==> c.link.value == Esc(s.link) && Html.Unescape(c.link.value) == s.link.value
    ensures Html.NoRaw(c.name) && Html.NoRaw(c.status) && Html.NoRaw(c.summary)
  {
    PlainDefaults();
    Html.EscapeRoundTrip(s.link);
    ServiceCard(Esc(s.name), DotClass(s.status), Esc(Some(Upper(Or(s.status, "")))),
                Esc(Some(Or(s.summary, ""))), Esc(Some(Or(s.impact, "None"))),
                Esc(Some(Or(s.owner, "Ops"))), if Truthy(s.link) then Some(Esc(s.link)) else None)
  }

  /** The update pill: unlike the service dots this compares the level
      exactly, so only "high" and "medium" in lower case count. */
  function UpdatePill(level: Option<string>): (r: string)
    ensures r == "bad" <==> level == Some("high")
    ensures r == "warn" <==> level == Some("medium")
    ensures r == "good" <==> level != Some("high") && level != Some("medium")
  {
    if level == Some("high") then "bad" else if level == Some("medium") then "warn" else "good"
  }

  datatype UpdateRow = UpdateRow(time: string, pill: string, level: string, text: string)

  /** One update: the level is shown upper-cased, "LOW" when missing. */
  function UpdateRowOf(u: Update): (r: UpdateRow)
    ensures r.pill == UpdatePill(u.level)
    ensures !Truthy(u.level) ==> r.level == "LOW"
    ensures Truthy(u.level) ==> r.level == Esc(Some(Upper(u.level.value)))
    ensures !Truthy(u.time) ==> r.time == ""
    ensures !Truthy(u.text) ==> r.text == ""
    ensures Truthy(u.time) ==> r.time == Esc(u.time)
    ensures Truthy(u.text) ==> r.text == Esc(u.text)
    ensures Html.NoRaw(r.time) && Html.NoRaw(r.text)
  {
    PlainDefaults();
    UpdateRow(Esc(Some(Or(u.time, ""))), UpdatePill(u.level), Esc(Some(Upper(Or(u.level, "low")))),
              Esc(Some(Or(u.text, ""))))
  }

  /** A capitalised level is shown as "HIGH" but gets the calm pill; the
      service dots, by contrast, ignore case. */
  lemma UpdatePillIsCaseSensitive()
    ensures UpdatePill(Some("High")) == "good" && UpdateRowOf(Update(None, Some("High"), None)).level == "HIGH"
    ensures UpdatePill(Some("high")) == "bad"
  {
    assert Upper("High") == "HIGH";
    assert Html.NoSpecial("HIGH");
  }

  const NoServices: string := "No services listed yet."
  const NoUpdates: string := "No updates yet."

  /** The service grid: the notice when `services` is not an array or is
      empty, otherwise one card per service, in order. */
  function ServicesOf(data: StatusData): (l: Html.Listing<ServiceCard>)
    ensures l.Notice? <==> !NonEmptyArray(data.services)
    ensures l.Notice? ==> l.text == NoServices
    ensures l.Rows? ==> (|l.rows| == |data.services.items|
      && forall i :: 0 <= i < |l.rows| ==> l.rows[i] == ServiceCardOf(data.services.items[i]))
  {
    Html.ListingOf(ArrayItems(data.services), ServiceCardOf, NoServices)
  }

  /** The update feed, by the same rule. */
  function UpdatesOf(data: StatusData): (l: Html.Listing<UpdateRow>)
    ensures l.Notice? <==> !NonEmptyArray(data.updates)
    ensures l.Notice? ==> l.text == NoUpdates
    ensures l.Rows? ==> (|l.rows| == |data.updates.items|
      && forall i :: 0 <= i < |l.rows| ==> l.rows[i] == UpdateRowOf(data.updates.items[i]))
  {
    Html.ListingOf(ArrayItems(data.updates), UpdateRowOf, NoUpdates)
  }

  /** The page's fixed slots, as `render` last wrote them. */
  class StatusPage {
    var banner: BannerView
    var meta: string
    var customerMessage: string
    var services: Html.Listing<ServiceCard>
    var updates: Html.Listing<UpdateRow>

    /** The slots as the page's markup has them before the first render. */
    constructor (banner: BannerView, meta: string, customerMessage: string)
      ensures this.banner == banner && this.meta == meta && this.customerMessage == customerMessage
      ensures services == Html.Rows([]) && updates == Html.Rows([])
    {
      this.banner := banner;
      this.meta := meta;
      this.customerMessage := customerMessage;
      services := Html.Rows([]);
      updates := Html.Rows([]);
    }

    /** `render(data)`: every slot is rewritten from `data`, so a refresh
        leaves nothing of the previous document behind. */
    method Render(data: StatusData)
      modifies this
      ensures banner == BannerOf(data) && meta == MetaText(data)
      ensures customerMessage == Or(data.customerMessage, "—")
      ensures services == ServicesOf(data) && updates == UpdatesOf(data)
    {
      banner := BannerOf(data);
      meta := MetaText(data);
      customerMessage := Or(data.customerMessage, "—");
      services := ServicesOf(data);
      updates := UpdatesOf(data);
    }
  }

  /** A document with no banner, times, message, services or updates. */
  lemma EmptyDocument()
    ensures var data := StatusData(None, None, None, None, Absent, NotArray);
      && BannerOf(data).title == "Status update"
      && BannerOf(data).dot == "dot-red" && BannerOf(data).pill == "Service disruption"
      && MetaText(data) == "Last updated: — • Next update: —"
      && ServicesOf(data) == Html.Notice(NoServices) && UpdatesOf(data) == Html.Notice(NoUpdates)
  {
    assert Html.NoSpecial("Service disruption");
    assert Lower("") == "";
  }
}
