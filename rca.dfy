/**
 * The root-cause-analysis page: a list of RCAs and the detail of the
 * selected one.  The loaded document is an input value; `RcaPage` holds
 * the list, the items' active flags and the detail panel.
 */
module Rca {
  import opened Js
  import Html
  import App

  /** This page's copy of the escape routine; it is `Html.Escape`. */
  function Esc(x: Option<string>): (r: string)
    ensures r == Html.Escape(x)
    ensures Html.NoRaw(r)
    ensures x.None? ==> r == ""
  {
    Html.EscapeChain(Coalesce(x, ""))
  }

  datatype Report = Report(
    title: Option<string>, date: Option<string>, severity: Option<string>, tag: Option<string>,
    relatedIncident: Option<string>, whatHappened: Option<string>, impact: Option<string>,
    rootCause: Option<string>, changes: Option<seq<string>>, prevention: Option<seq<string>>)

  /** The detail's severity pill: the severity is compared exactly, so
      only "High" and "Medium" spelt that way count. */
  function SeverityPill(sev: Option<string>): (r: string)
    ensures r == "bad" <==> sev == Some("High")
    ensures r == "warn" <==> sev == Some("Medium")
    ensures r == "good" <==> sev != Some("High") && sev != Some("Medium")
  {
    if sev == Some("High") then "bad" else if sev == Some("Medium") then "warn" else "good"
  }

  /** The incident pages compare severities without regard to case; this
      page does not, so the same lower-case severity gets different pills. */
  lemma PillCaseContrast()
    ensures SeverityPill(Some("high")) == "good" && App.SeverityPill(Some("high")) == "bad"
    ensures SeverityPill(Some("High")) == "bad" && App.SeverityPill(Some("High")) == "bad"
  {
    assert Lower("high") == "high";
    assert Lower("High") == "high";
  }

  /* ---------------------------------------------------------------------
     Rendered list and detail
     --------------------------------------------------------------------- */

  /** One list item: its `data-i` index and its escaped texts. */
  datatype RcaItem = RcaItem(index: nat, title: string, date: string, severity: string, tag: string)

  function ItemOf(i: nat, r: Report): (it: RcaItem)
    ensures it.index == i
    ensures !Truthy(r.tag) ==> it.tag == "Review"
    ensures Truthy(r.tag) ==> it.tag == Esc(r.tag)
    ensures it.title == Esc(r.title) && it.date == Esc(r.date) && it.severity == Esc(r.severity)
    ensures Html.NoRaw(it.title) && Html.NoRaw(it.date) && Html.NoRaw(it.severity)
  {
    assert Html.NoSpecial("Review");
    RcaItem(i, Esc(r.title), Esc(r.date), Esc(r.severity), Esc(Some(Or(r.tag, "Review"))))
  }

  const NoRcas: string := "No RCAs yet."

  /** The list: the notice when there are no RCAs (or no document), one item
      per RCA otherwise, each carrying its own position. */
  function ListOf(data: Option<seq<Report>>): (l: Html.Listing<RcaItem>)
    ensures l.Notice? <==> |ListOr(data)| == 0
    ensures l.Notice? ==> l.text == NoRcas
    ensures l.Rows? ==> (|l.rows| == |ListOr(data)|
      && forall i :: 0 <= i < |l.rows| ==> l.rows[i] == ItemOf(i, ListOr(data)[i]) && l.rows[i].index == i)
  {
    var xs := ListOr(data);
    if |xs| == 0 then Html.Notice(NoRcas)
    else Html.Rows(seq(|xs|, i requires 0 <= i < |xs| => ItemOf(i, xs[i])))
  }

  datatype RcaDetail = RcaDetail(
    pill: string, severity: string, title: string, date: string, related: string,
    whatHappened: string, impact: string, rootCause: string,
    changes: seq<string>, prevention: seq<string>)

  /** `renderDetail(rca)`: one bullet per change and per prevention item
      (none when the list is missing), and "—" for a missing related
      incident. */
  function DetailOf(r: Report): (d: RcaDetail)
    ensures d.pill == SeverityPill(r.severity)
    ensures d.severity == Esc(r.severity) && d.title == Esc(r.title) && d.date == Esc(r.date)
    ensures !Truthy(r.relatedIncident) ==> d.related == "—"
    ensures Truthy(r.relatedIncident) ==> d.related == Esc(r.relatedIncident)
    ensures d.whatHappened == Esc(r.whatHappened) && d.impact == Esc(r.impact)
      && d.rootCause == Esc(r.rootCause)
    ensures |d.changes| == |ListOr(r.changes)| && |d.prevention| == |ListOr(r.prevention)|
    ensures forall i :: 0 <= i < |d.changes| ==> d.changes[i] == Esc(Some(ListOr(r.changes)[i]))
    ensures forall i :: 0 <= i < |d.prevention| ==> d.prevention[i] == Esc(Some(ListOr(r.prevention)[i]))
    ensures r.changes.None? ==> d.changes == []
    ensures r.prevention.None? ==> d.prevention == []
  {
    assert Html.NoSpecial("—");
    var changes := ListOr(r.changes);
    var prevention := ListOr(r.prevention);
    RcaDetail(SeverityPill(r.severity), Esc(r.severity), Esc(r.title), Esc(r.date),
              Esc(Some(Or(r.relatedIncident, "—"))), Esc(r.whatHappened), Esc(r.impact), Esc(r.rootCause),
              seq(|changes|, i requires 0 <= i < |changes| => Esc(Some(changes[i]))),
              seq(|prevention|, i requires 0 <= i < |prevention| => Esc(Some(prevention[i]))))
  }

  /** The page state after `init`. */
  class RcaPage {
    var data: seq<Report>
    var list: Html.Listing<RcaItem>
    var active: seq<bool>
    var detail: Option<RcaDetail>

    ghost predicate Valid()
      reads this
    {
      && (list.Notice? ==> |active| == 0)
      && (list.Rows? ==> (|active| == |list.rows| == |data|
          && forall i :: 0 <= i < |data| ==> list.rows[i].index == i))
    }

    constructor ()
      ensures Valid() && data == [] && list == Html.Notice(NoRcas) && active == [] && detail.None?
    {
      data := [];
      list := Html.Notice(NoRcas);
      active := [];
      detail := None;
    }

    /** `init()` with the loaded document: the list is written, and when it
        has items the first becomes the only active one and is shown. */
    method Init(doc: Option<seq<Report>>)
      modifies this
      ensures Valid() && data == ListOr(doc) && list == ListOf(doc)
      ensures |data| == 0 ==> active == [] && detail == old(detail)
      ensures |data| > 0 ==> (Html.OnlyActive(active, 0) && Html.CountActive(active) == 1
        && detail == Some(DetailOf(data[0])))
    {
      var xs := ListOr(doc);
      data := xs;
      list := ListOf(doc);
      active := Html.SelectOnly(|xs|, 0);
      if |xs| > 0 {
        detail := Some(DetailOf(data[0]));
      }
    }

    /** A click on item `k`: it becomes the only active item and the RCA at
        its `data-i` position is shown. */
    method Click(k: int)
      requires Valid() && 0 <= k < |active|
      modifies this
      ensures Valid() && data == old(data) && list == old(list)
      ensures Html.OnlyActive(active, k) && Html.CountActive(active) == 1
      ensures detail == Some(DetailOf(data[k]))
    {
      active := Html.SelectOnly(|active|, k);
      var at := list.rows[k].index;
      detail := Some(DetailOf(data[at]));
    }
  }
}
