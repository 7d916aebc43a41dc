/** The page state the viewer changes: its three containers, the requests it
    issues, the alerts it raises and the errors it logs; and the operations
    that change them: `showMessage`, `renderMatches`, the two list fetches,
    the detail fetch and the delegated click handler (script.js:10-89,
    125-146). Each async function is split at its first `await`: `Start...`
    is what runs at once, `Finish...` what runs when the response arrives. */
module Page {
  import opened Js
  import opened JsText
  import opened Normalise
  import opened Cards
  import Details

  /** A child element of a container. `Para(text, cls)` is
      `<p class="cls">text</p>` (`None`: no class attribute); a card is a
      `div.match-card`; the detail view is the block written at
      script.js:111-121. */
  datatype Node =
    | Para(text: string, cls: Option<string>)
    | CardNode(card: Card)
    | DetailNode(detail: Details.Detail)

  /** What an awaited `fetch(...)` then `response.json()` yields: a parsed
      body, or a rejection (network error or a body that is not JSON). */
  datatype Response = Failure | Success(body: Json)

  /** The GET requests the viewer issues. */
  datatype Request = CurrentMatches | AllMatches | MatchInfo(id: string)

  /** The two list views: `#crntmatches` and `#matches`. */
  datatype ListKind = Current | All

  function LoadingText(k: ListKind): string {
    if k == Current then "Loading current matches…" else "Loading matches…"
  }

  function EmptyText(k: ListKind): string {
    if k == Current then "No current matches found." else "No matches found."
  }

  function ErrorText(k: ListKind): string {
    if k == Current then "Error fetching current matches" else "Error fetching matches"
  }

  function RequestOf(k: ListKind): Request {
    if k == Current then CurrentMatches else AllMatches
  }

  const LoadingDetails := Para("Loading details…", None)
  const DetailsError := Para("Error loading details", Some("error"))
  const NoIdAlert := "No ID available for this match."
  const CloseId := "close-details"

  predicate IsMessage(n: Node, cls: string) {
    n.Para? && n.cls == Some(cls)
  }

  predicate AllRecords(ms: seq<Json>) {
    forall i :: 0 <= i < |ms| ==> ms[i] != Null
  }

  /** The cards for a run of records: one per record, in order, with no
      deduplication. */
  function CardNodes(ms: seq<Json>): (v: seq<Node>)
    requires AllRecords(ms)
    ensures |v| == |ms|
    ensures forall i :: 0 <= i < |ms| ==> v[i] == CardNode(CardOf(ms[i]))
  {
    if ms == [] then [] else [CardNode(CardOf(ms[0]))] + CardNodes(ms[1..])
  }

  /** Appending the card for one more record extends the cards by it. */
  lemma CardNodesStep(ms: seq<Json>, i: nat)
    requires i < |ms| && forall j :: 0 <= j <= i ==> ms[j] != Null
    ensures AllRecords(ms[..i]) && AllRecords(ms[..i + 1])
    ensures CardNodes(ms[..i + 1]) == CardNodes(ms[..i]) + [CardNode(CardOf(ms[i]))]
  {
    assert forall j :: 0 <= j < i ==> ms[..i][j] == ms[j];
    assert forall j :: 0 <= j <= i ==> ms[..i + 1][j] == ms[j];
    var a := CardNodes(ms[..i + 1]);
    var b := CardNodes(ms[..i]) + [CardNode(CardOf(ms[i]))];
    forall j | 0 <= j <= i
      ensures a[j] == b[j]
    {
      assert a[j] == CardNode(CardOf(ms[j]));
      if j < i {
        assert b[j] == CardNodes(ms[..i])[j] == CardNode(CardOf(ms[j]));
      }
    }
    assert a == b;
  }

  /** What a list container holds once a list fetch has finished: one error
      message when the fetch or parse failed or a record threw, one empty
      message when normalising gave no records, else one card per record in
      order. */
  function ListOutcome(k: ListKind, r: Response): (v: seq<Node>)
    ensures |v| == 1 && IsMessage(v[0], "error") <==>
      r.Failure? || (r.Success? && !AllRecords(GetArray(r.body)))
    ensures |v| == 1 && IsMessage(v[0], "empty") <==> r.Success? && GetArray(r.body) == []
    ensures v == [Para(ErrorText(k), Some("error"))] || v == [Para(EmptyText(k), Some("empty"))] || forall i :: 0 <= i < |v| ==> v[i].CardNode?
    ensures r.Success? && AllRecords(GetArray(r.body)) ==>
      var ms := GetArray(r.body);
      ms != [] ==> v == CardNodes(ms)
  {
    match r
    case Failure => [Para(ErrorText(k), Some("error"))]
    case Success(body) =>
      var ms := GetArray(body);
      if ms == [] then [Para(EmptyText(k), Some("empty"))]
      else if !AllRecords(ms) then [Para(ErrorText(k), Some("error"))]
      else CardNodes(ms)
  }

  /** What the details container holds once a detail fetch has finished. */
  function DetailOutcome(r: Response): (v: seq<Node>)
    ensures |v| == 1
    ensures IsMessage(v[0], "error") <==> r.Failure? || Details.DetailOf(r.body).None?
    ensures v[0].DetailNode? ==> v[0].detail.raw == Details.Unwrap(r.body)
    ensures r.Success? && Details.DetailOf(r.body).Some? ==> v == [DetailNode(Details.DetailOf(r.body).value)]
  {
    match r
    case Failure => [DetailsError]
    case Success(body) =>
      match Details.DetailOf(body)
      case None => [DetailsError]
      case Some(d) => [DetailNode(d)]
  }

  /** A click target: whether it matches `.details-btn`, its `data-id` (if
      the attribute is there) and its element id. */
  datatype Target = Target(detailsButton: bool, dataId: Option<string>, elementId: string)

  /** What the delegated click handler does for a target: alert, start a
      detail fetch for an id, and/or hide the details container. */
  datatype ClickAction = ClickAction(alert: bool, fetch: Option<string>, hide: bool)

  /** A details button without a non-empty id alerts and stops; with one it
      fetches exactly that id; the close control hides, unless the handler
      already stopped at the alert. */
  function ClickActionOf(t: Target): (a: ClickAction)
    ensures a.alert <==> t.detailsButton && (t.dataId.None? || t.dataId.value == "")
    ensures a.fetch.Some? <==> t.detailsButton && t.dataId.Some? && t.dataId.value != ""
    ensures a.fetch.Some? ==> a.fetch.value == t.dataId.value && a.fetch.value != ""
    ensures !(a.alert && a.fetch.Some?)
    ensures a.hide <==> !a.alert && t.elementId == CloseId
  {
    if t.detailsButton && (t.dataId.None? || t.dataId.value == "") then ClickAction(true, None, false)
    else
      ClickAction(false, if t.detailsButton then Some(t.dataId.value) else None, t.elementId == CloseId)
  }

  /** The button a card carries: `.details-btn` with `data-id` set to the
      card's resolved id, and no element id. */
  function ButtonOf(c: Card): Target {
    Target(true, Some(DataId(c)), "")
  }

  /** A card's button starts a detail fetch exactly when its id text is
      non-empty, and then for that text. A record with no truthy id field
      gets the `''` default and its button only alerts; one whose id is a
      truthy string, number or object always fetches. */
  lemma CardButtonClick(m: Json)
    requires m != Null
    ensures var a := ClickActionOf(ButtonOf(CardOf(m)));
      && (a.fetch.Some? <==> DataId(CardOf(m)) != "")
      && (a.fetch.Some? ==> a.fetch.value == DataId(CardOf(m)))
      && !a.hide
    ensures NonePresent([Get(m, "id"), Get(m, "unique_id"), Get(m, "match_id")]) ==>
      ClickActionOf(ButtonOf(CardOf(m))) == ClickAction(true, None, false)
    ensures !CardOf(m).id.Arr? && Truthy(CardOf(m).id) ==>
      ClickActionOf(ButtonOf(CardOf(m))).fetch == Some(Text(CardOf(m).id))
  {
  }

  /** A page region; `children` is its content, `hidden` its `hidden` class. */
  class Container {
    var children: seq<Node>
    var hidden: bool

    constructor (children: seq<Node>, hidden: bool)
      ensures this.children == children && this.hidden == hidden
    {
      this.children := children;
      this.hidden := hidden;
    }
  }

  /** `showMessage`: a container that does not exist is left alone; otherwise
      its content becomes one paragraph of the given class (`info` when the
      class is empty). */
  method ShowMessage(c: Container?, msg: string, className: string)
    modifies c
    ensures c != null ==> c.children == [Para(msg, Some(if className == "" then "info" else className))]
    ensures c != null ==> c.hidden == old(c.hidden)
  {
    if c == null {
      return;
    }
    c.children := [Para(msg, Some(if className == "" then "info" else className))];
  }

  /** `renderMatches`: clears the container, then appends one card per
      record in order. A `null` record throws at its first property read,
      leaving the cards of the records before it; `ok` is false then. A
      container that does not exist is left alone and nothing throws. */
  method RenderMatches(c: Container?, ms: seq<Json>) returns (ok: bool)
    modifies c
    ensures c == null ==> ok
    ensures c != null ==> ok == AllRecords(ms)
    ensures c != null && ok ==> c.children == CardNodes(ms)
    ensures c != null && !ok ==>
      exists k :: 0 <= k < |ms| && ms[k] == Null && AllRecords(ms[..k]) && c.children == CardNodes(ms[..k])
    ensures c != null ==> c.hidden == old(c.hidden)
  {
    if c == null {
      return true;
    }
    c.children := [];
    var i := 0;
    while i < |ms|
      invariant 0 <= i <= |ms|
      invariant forall j :: 0 <= j < i ==> ms[j] != Null
      invariant AllRecords(ms[..i]) && c.children == CardNodes(ms[..i])
      invariant c.hidden == old(c.hidden)
    {
      if ms[i] == Null {
        assert !AllRecords(ms);
        return false;
      }
      CardNodesStep(ms, i);
      c.children := c.children + [CardNode(CardOf(ms[i]))];
      i := i + 1;
    }
    assert ms[..i] == ms;
    return true;
  }

  /** The page: its three containers (absent ones are `null`), the requests
      issued, the alerts raised and the errors logged to the console. */
  class Page {
    const current: Container?
    const all: Container?
    const details: Container?
    var requests: seq<Request>
    var alerts: seq<string>
    var errorsLogged: nat

    function ListContainer(k: ListKind): Container? {
      if k == Current then current else all
    }

    /** The three regions are distinct elements (`#crntmatches`, `#matches`
      and `#match-details` are distinct ids); any of them may be absent. So a
      method whose frame names one container leaves the other two as they
      were. */
    predicate Distinct() {
      && (current != null && all != null ==> current != all)
      && (current != null && details != null ==> current != details)
      && (all != null && details != null ==> all != details)
    }

    constructor (current: Container?, all: Container?, details: Container?)
      requires current != null && all != null ==> current != all
      requires current != null && details != null ==> current != details
      requires all != null && details != null ==> all != details
      ensures this.current == current && this.all == all && this.details == details
      ensures Distinct()
      ensures requests == [] && alerts == [] && errorsLogged == 0
    {
      this.current := current;
      this.all := all;
      this.details := details;
      requests := [];
      alerts := [];
      errorsLogged := 0;
    }

    /** The part of `fetchCurrentMatches`/`fetchMatches` before the first
      `await`: show the loading message, then issue the request (issued even
      when the container does not exist). */
    method StartListFetch(k: ListKind)
      modifies this, ListContainer(k)
      ensures requests == old(requests) + [RequestOf(k)]
      ensures alerts == old(alerts) && errorsLogged == old(errorsLogged)
      ensures var c := ListContainer(k);
        c != null ==> c.children == [Para(LoadingText(k), Some("loading"))] && c.hidden == old(c.hidden)
    {
      ShowMessage(ListContainer(k), LoadingText(k), "loading");
      requests := requests + [RequestOf(k)];
    }

    /** The rest of a list fetch, once the response is in: normalise, then
      the empty message or the cards; a rejection, or a record that throws
      while rendering, ends in the error message and one console entry.
      Nothing propagates. */
    method FinishListFetch(k: ListKind, r: Response)
      modifies this, ListContainer(k)
      ensures var c := ListContainer(k);
        c != null ==> c.children == ListOutcome(k, r) && c.hidden == old(c.hidden)
      ensures errorsLogged == old(errorsLogged) +
        if r.Failure? || (ListContainer(k) != null && !AllRecords(GetArray(r.body))) then 1 else 0
      ensures requests == old(requests) && alerts == old(alerts)
    {
      var c := ListContainer(k);
      match r
      case Failure =>
        ShowMessage(c, ErrorText(k), "error");
        errorsLogged := errorsLogged + 1;
      case Success(body) =>
        var ms := GetArray(body);
        if |ms| == 0 {
          ShowMessage(c, EmptyText(k), "empty");
          return;
        }
        var ok := RenderMatches(c, ms);
        if !ok {
          ShowMessage(c, ErrorText(k), "error");
          errorsLogged := errorsLogged + 1;
        }
    }

    /** A whole list fetch whose response arrives before anything else
      happens: one request, and the container ends as `ListOutcome` says. */
    method FetchList(k: ListKind, r: Response)
      modifies this, ListContainer(k)
      ensures requests == old(requests) + [RequestOf(k)] && alerts == old(alerts)
      ensures var c := ListContainer(k);
        c != null ==> c.children == ListOutcome(k, r) && c.hidden == old(c.hidden)
      ensures errorsLogged == old(errorsLogged) +
        if r.Failure? || (ListContainer(k) != null && !AllRecords(GetArray(r.body))) then 1 else 0
    {
      StartListFetch(k);
      FinishListFetch(k, r);
    }

    /** The part of `fetchMatchDetails(id)` before the first `await`: without
      a details container nothing happens (not even the request); otherwise
      the container is shown, holds the loading line, and the request for
      `id` is issued. */
    method StartMatchDetails(id: string)
      modifies this, details
      ensures details == null ==> requests == old(requests)
      ensures details != null ==> requests == old(requests) + [MatchInfo(id)]
      ensures details != null ==> !details.hidden && details.children == [LoadingDetails]
      ensures alerts == old(alerts) && errorsLogged == old(errorsLogged)
    {
      if details == null {
        return;
      }
      details.hidden := false;
      details.children := [LoadingDetails];
      requests := requests + [MatchInfo(id)];
    }

    /** The rest of a detail fetch: the detail view, or the error line and a
      console entry when the fetch was rejected or rendering threw. */
    method FinishMatchDetails(r: Response)
      requires details != null
      modifies this, details
      ensures details.children == DetailOutcome(r) && details.hidden == old(details.hidden)
      ensures errorsLogged == old(errorsLogged) + if IsMessage(DetailOutcome(r)[0], "error") then 1 else 0
      ensures requests == old(requests) && alerts == old(alerts)
    {
      match r
      case Failure =>
        details.children := [DetailsError];
        errorsLogged := errorsLogged + 1;
      case Success(body) =>
        match Details.DetailOf(body)
        case None =>
          details.children := [DetailsError];
          errorsLogged := errorsLogged + 1;
        case Some(d) =>
          details.children := [DetailNode(d)];
    }

    /** The delegated click handler. A details button with an empty or
      missing id raises one alert and issues nothing; one with an id starts
      exactly one detail fetch for it. The close control hides the details
      container and leaves its content as it was. */
    method Click(t: Target)
      modifies this, details
      ensures var a := ClickActionOf(t);
        && alerts == old(alerts) + (if a.alert then [NoIdAlert] else [])
        && requests == old(requests) + (if a.fetch.Some? && details != null then [MatchInfo(a.fetch.value)] else [])
        && errorsLogged == old(errorsLogged)
      ensures var a := ClickActionOf(t);
        details != null ==>
          && details.children == (if a.fetch.Some? then [LoadingDetails] else old(details.children))
          && details.hidden == (if a.hide then true else if a.fetch.Some? then false else old(details.hidden))
    {
      if t.detailsButton {
        if t.dataId.None? || t.dataId.value == "" {
          alerts := alerts + [NoIdAlert];
          return;
        }
        StartMatchDetails(t.dataId.value);
      }
      if t.elementId == CloseId && details != null {
        details.hidden := true;
      }
    }

    /** `DOMContentLoaded`: the automatic current-matches fetch starts. */
    method Ready()
      modifies this, current
      ensures requests == old(requests) + [CurrentMatches]
      ensures current != null ==> current.children == [Para(LoadingText(Current), Some("loading"))]
      ensures current != null ==> current.hidden == old(current.hidden)
      ensures alerts == old(alerts) && errorsLogged == old(errorsLogged)
      ensures Distinct() && all != null ==> all.children == old(all.children) && all.hidden == old(all.hidden)
      ensures Distinct() && details != null ==> details.children == old(details.children) && details.hidden == old(details.hidden)
    {
      StartListFetch(Current);
    }
  }
}
