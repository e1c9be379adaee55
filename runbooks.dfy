/**
 * The runbook library page: a search box filters the loaded runbooks, the
 * matching ones are listed, and the selected one is shown in detail.  The
 * page keeps the loaded runbooks in a module-level variable and rebuilds
 * the list on every search; `RunbookPage` holds that state.
 */
module Runbooks {
  import opened Js
  import Html

  /** This page's copy of the escape routine; it is `Html.Escape`. */
  function Esc(x: Option<string>): (r: string)
    ensures r == Html.Escape(x)
    ensures Html.NoRaw(r)
    ensures x.None? ==> r == ""
  {
    Html.EscapeChain(Coalesce(x, ""))
  }

  datatype Runbook = Runbook(
    id: Option<string>, title: Option<string>, tags: Option<seq<string>>,
    when: Option<string>, goal: Option<string>, steps: Option<seq<string>>,
    escalate: Option<string>, stakeholderMessage: Option<string>)

  /* ---------------------------------------------------------------------
     The search filter
     --------------------------------------------------------------------- */

  /** `filter.trim().toLowerCase()`. */
  function Query(filter: string): string {
    Lower(Trim(filter))
  }

  /** The text a runbook is searched in: its title, its tags and its
      "when" line, lower-cased.  A missing title is written "undefined", as
      template interpolation does. */
  function Blob(r: Runbook): string {
    Lower(Interp(r.title) + " " + Join(ListOr(r.tags), " ") + " " + Or(r.when, ""))
  }

  /** The filter predicate: everything passes an empty query. */
  predicate Matches(r: Runbook, q: string) {
    q == "" || Includes(Blob(r), q)
  }

  /** `RUNBOOKS.filter(...)`. */
  function FilterRunbooks(rbs: seq<Runbook>, q: string): (r: seq<Runbook>)
    ensures |r| <= |rbs|
    ensures forall x :: x in r <==> x in rbs && Matches(x, q)
    decreases |rbs|
  {
    if |rbs| == 0 then []
    else if Matches(rbs[0], q) then [rbs[0]] + FilterRunbooks(rbs[1..], q)
    else FilterRunbooks(rbs[1..], q)
  }

  /** `a` is `b` with some elements left out, in the same order. */
  ghost predicate Subsequence<T>(a: seq<T>, b: seq<T>)
    decreases |b|
  {
    |a| == 0
    || (|b| > 0 && ((a[0] == b[0] && Subsequence(a[1..], b[1..])) || Subsequence(a, b[1..])))
  }

  /** The filtered list keeps the runbooks' order. */
  lemma {:induction false} FilterIsSubsequence(rbs: seq<Runbook>, q: string)
    ensures Subsequence(FilterRunbooks(rbs, q), rbs)
    decreases |rbs|
  {
    if |rbs| > 0 {
      FilterIsSubsequence(rbs[1..], q);
      var rest := FilterRunbooks(rbs[1..], q);
      if Matches(rbs[0], q) {
        assert ([rbs[0]] + rest)[1..] == rest;
      }
    }
  }

  /** An empty query keeps every runbook. */
  lemma {:induction false} FilterEmptyQuery(rbs: seq<Runbook>)
    ensures FilterRunbooks(rbs, "") == rbs
    decreases |rbs|
  {
    if |rbs| > 0 {
      FilterEmptyQuery(rbs[1..]);
      assert [rbs[0]] + rbs[1..] == rbs;
    }
  }

  /** A filter that is empty or only white space lists every runbook. */
  lemma BlankFilterListsAll(rbs: seq<Runbook>, filter: string)
    requires AllSpace(filter)
    ensures FilterRunbooks(rbs, Query(filter)) == rbs
  {
    TrimEmptyIffAllSpace(filter);
    assert Query(filter) == "";
    FilterEmptyQuery(rbs);
  }

  /** With a non-blank filter, a runbook is listed exactly when the
      trimmed, lower-cased filter occurs somewhere in its lower-cased text. */
  lemma FilterMeansSubstring(rbs: seq<Runbook>, filter: string, r: Runbook)
    requires !AllSpace(filter) && r in rbs
    ensures r in FilterRunbooks(rbs, Query(filter)) <==> exists i: nat :: OccursAt(Blob(r), Query(filter), i)
  {
    TrimEmptyIffAllSpace(filter);
    IncludesAt(Blob(r), Query(filter));
  }

  /** The letter case of what is typed does not change the result. */
  lemma FilterIgnoresCase(rbs: seq<Runbook>, f1: string, f2: string)
    requires Lower(f1) == Lower(f2)
    ensures FilterRunbooks(rbs, Query(f1)) == FilterRunbooks(rbs, Query(f2))
  {
    LowerTrim(f1);
    LowerTrim(f2);
  }

  /* ---------------------------------------------------------------------
     Rendered items and detail
     --------------------------------------------------------------------- */

  /** One list item: its `data-id` attribute and its escaped title and tags. */
  datatype RbItem = RbItem(dataId: string, title: string, tags: seq<string>)

  function ItemOf(r: Runbook): (it: RbItem)
    ensures |it.tags| == |ListOr(r.tags)|
    ensures forall i :: 0 <= i < |it.tags| ==> it.tags[i] == Html.Escape(Some(ListOr(r.tags)[i]))
    ensures it.dataId == Esc(r.id) && it.title == Esc(r.title) && Html.NoRaw(it.title)
  {
    RbItem(Esc(r.id), Esc(r.title), Html.EscapeAll(ListOr(r.tags)))
  }

  /** The id a click reads back from `data-id`: the attribute decoded, which
      is the runbook's id, or "" when it has none. */
  function DatasetId(it: RbItem): string {
    Html.Unescape(it.dataId)
  }

  lemma DatasetIdIsId(r: Runbook)
    ensures DatasetId(ItemOf(r)) == Coalesce(r.id, "")
  {
    Html.EscapeRoundTrip(r.id);
  }

  /** `RUNBOOKS.find(x => x.id === id)`. */
  function FindById(rbs: seq<Runbook>, id: string): (r: Option<Runbook>)
    ensures r.Some? ==> r.value in rbs && r.value.id == Some(id)
    ensures r.Some? ==> exists j :: (0 <= j < |rbs| && rbs[j] == r.value
      && forall k :: 0 <= k < j ==> rbs[k].id != Some(id))
    ensures r.None? <==> forall x :: x in rbs ==> x.id != Some(id)
    decreases |rbs|
  {
    if |rbs| == 0 then None
    else if rbs[0].id == Some(id) then Some(rbs[0])
    else FindById(rbs[1..], id)
  }

  const DefaultEscalate: string := "If the issue persists or impact grows."

  /** The "When to escalate" text: the runbook's own, or the standard line
      when it has none. */
  function EscalateText(escalate: Option<string>): (r: string)
    ensures !Truthy(escalate) ==> r == DefaultEscalate
    ensures Truthy(escalate) ==> r == Esc(escalate)
  {
    assert Html.NoSpecial(DefaultEscalate);
    Esc(Some(Or(escalate, DefaultEscalate)))
  }

  datatype RbDetail = RbDetail(title: string, when: string, goal: string, steps: seq<string>,
                               escalate: string, stakeholder: string)

  /** `renderDetail(rb)`: one list entry per step, none when the steps are
      missing, and the standard escalation line when there is none. */
  function DetailOf(r: Runbook): (d: RbDetail)
    ensures |d.steps| == |ListOr(r.steps)|
    ensures forall i :: 0 <= i < |d.steps| ==> d.steps[i] == Html.Escape(Some(ListOr(r.steps)[i]))
    ensures r.steps.None? ==> d.steps == []
    ensures d.escalate == EscalateText(r.escalate)
    ensures d.title == Esc(r.title)
    ensures !Truthy(r.when) ==> d.when == ""
    ensures !Truthy(r.goal) ==> d.goal == ""
    ensures !Truthy(r.stakeholderMessage) ==> d.stakeholder == ""
    ensures Truthy(r.when) ==> d.when == Esc(r.when)
    ensures Truthy(r.goal) ==> d.goal == Esc(r.goal)
    ensures Truthy(r.stakeholderMessage) ==> d.stakeholder == Esc(r.stakeholderMessage)
  {
    RbDetail(Esc(r.title), Esc(Some(Or(r.when, ""))), Esc(Some(Or(r.goal, ""))),
             Html.EscapeAll(ListOr(r.steps)),
             EscalateText(r.escalate), Esc(Some(Or(r.stakeholderMessage, ""))))
  }

  const NoMatches: string := "No matching runbooks."

  /** The list `renderList` writes for `filter`. */
  function ListFor(rbs: seq<Runbook>, filter: string): (l: Html.Listing<RbItem>)
    ensures var shown := FilterRunbooks(rbs, Query(filter));
      && (l.Notice? <==> |shown| == 0)
      && (l.Notice? ==> l.text == NoMatches)
      && (l.Rows? ==> 0 < |l.rows| == |shown| && forall i :: 0 <= i < |shown| ==> l.rows[i] == ItemOf(shown[i]))
  {
    Html.ListingOf(FilterRunbooks(rbs, Query(filter)), ItemOf, NoMatches)
  }

  /** With no filter every runbook is listed, in order. */
  lemma ListAll(rbs: seq<Runbook>)
    ensures ItemsOf(ListFor(rbs, "")) == seq(|rbs|, i requires 0 <= i < |rbs| => ItemOf(rbs[i]))
  {
    assert Query("") == "" by { assert Trim("") == ""; }
    FilterEmptyQuery(rbs);
    var l := ListFor(rbs, "");
    var want := seq(|rbs|, i requires 0 <= i < |rbs| => ItemOf(rbs[i]));
    if l.Rows? {
      assert |l.rows| == |want|;
      forall i | 0 <= i < |want| ensures l.rows[i] == want[i] { }
    } else {
      assert |want| == 0;
    }
  }

  /** The items of a listing; none for the notice. */
  function ItemsOf(l: Html.Listing<RbItem>): seq<RbItem> {
    if l.Rows? then l.rows else []
  }

  /** The detail a selection of `it` shows: the first runbook, among all
      loaded ones, whose id is the item's `data-id`; when none has it the
      panel keeps what it showed. */
  function SelectedDetail(rbs: seq<Runbook>, it: RbItem, old_: Option<RbDetail>): Option<RbDetail> {
    var found := FindById(rbs, DatasetId(it));
    if found.Some? then Some(DetailOf(found.value)) else old_
  }

  /** A selection replaces the panel exactly when some loaded runbook has
      the item's id. */
  lemma SelectionReplacesIffFound(rbs: seq<Runbook>, it: RbItem, old_: Option<RbDetail>)
    ensures (forall x :: x in rbs ==> x.id != Some(DatasetId(it))) ==> SelectedDetail(rbs, it, old_) == old_
    ensures (exists x :: x in rbs && x.id == Some(DatasetId(it))) ==> SelectedDetail(rbs, it, old_).Some?
  {
  }

  /** Selecting the item of a runbook whose id is present and unique among
      the loaded ones shows that runbook. */
  lemma SelectingShowsOwnRunbook(rbs: seq<Runbook>, r: Runbook, old_: Option<RbDetail>)
    requires r in rbs && r.id.Some?
    requires forall x :: x in rbs && x.id == r.id ==> x == r
    ensures SelectedDetail(rbs, ItemOf(r), old_) == Some(DetailOf(r))
  {
    DatasetIdIsId(r);
  }

  /** The page state: the loaded runbooks, the list shown, each item's
      active flag and the detail panel (`None` until one is rendered). */
  class RunbookPage {
    var runbooks: seq<Runbook>
    var list: Html.Listing<RbItem>
    var active: seq<bool>
    var detail: Option<RbDetail>

    ghost predicate Valid()
      reads this
    {
      |active| == |ItemsOf(list)|
    }

    constructor ()
      ensures Valid() && runbooks == [] && list == Html.Rows([]) && active == [] && detail.None?
    {
      runbooks := [];
      list := Html.Rows([]);
      active := [];
      detail := None;
    }

    /** `init()`: store the loaded runbooks and list them all. */
    method Init(data: seq<Runbook>)
      modifies this
      ensures Valid() && runbooks == data
      ensures list == ListFor(data, "")
      ensures ItemsOf(list) == seq(|data|, i requires 0 <= i < |data| => ItemOf(data[i]))
      ensures |data| > 0 ==> (Html.OnlyActive(active, 0)
        && detail == SelectedDetail(data, ItemOf(data[0]), old(detail)))
      ensures |data| == 0 ==> active == [] && detail == old(detail)
    {
      runbooks := data;
      RenderList("");
      ListAll(data);
    }

    /** `renderList(filter)`: rebuild the list from the filtered runbooks;
        when it is not empty, the first item becomes the only active one and
        its runbook is shown. */
    method RenderList(filter: string)
      modifies this
      ensures Valid() && runbooks == old(runbooks)
      ensures list == ListFor(runbooks, filter)
      ensures list.Notice? ==> active == [] && detail == old(detail)
      ensures list.Rows? ==> (Html.OnlyActive(active, 0) && Html.CountActive(active) == 1
        && detail == SelectedDetail(runbooks, list.rows[0], old(detail)))
    {
      list := ListFor(runbooks, filter);
      SelectFirst();
    }

    /** The end of `renderList`: the first item of the list just written,
        if there is one, is selected. */
    method SelectFirst()
      modifies this
      ensures runbooks == old(runbooks) && list == old(list)
      ensures |active| == |ItemsOf(list)|
      ensures ItemsOf(list) == [] ==> active == [] && detail == old(detail)
      ensures ItemsOf(list) != [] ==> (Html.OnlyActive(active, 0) && Html.CountActive(active) == 1
        && detail == SelectedDetail(runbooks, ItemsOf(list)[0], old(detail)))
    {
      var items := ItemsOf(list);
      active := Html.SelectOnly(|items|, 0);
      if |items| > 0 {
        detail := SelectedDetail(runbooks, items[0], detail);
      }
    }

    /** A search-box edit: `renderList(value || "")`. */
    method Search(value: Option<string>)
      modifies this
      ensures Valid() && runbooks == old(runbooks)
      ensures list == ListFor(runbooks, Or(value, ""))
      ensures list.Notice? ==> active == [] && detail == old(detail)
      ensures list.Rows? ==> (Html.OnlyActive(active, 0)
        && detail == SelectedDetail(runbooks, list.rows[0], old(detail)))
    {
      RenderList(Or(value, ""));
    }

    /** A click on item `k`: it becomes the only active item, and its
        runbook, if an id lookup finds one, is shown. */
    method Click(k: int)
      requires Valid() && 0 <= k < |active|
      modifies this
      ensures Valid() && runbooks == old(runbooks) && list == old(list)
      ensures Html.OnlyActive(active, k) && Html.CountActive(active) == 1
      ensures detail == SelectedDetail(runbooks, ItemsOf(list)[k], old(detail))
    {
      active := Html.SelectOnly(|active|, k);
      detail := SelectedDetail(runbooks, ItemsOf(list)[k], detail);
    }
  }
}
