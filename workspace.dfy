/**
 * The bucket dropdown (frontend/src/components/workspace/Workspace.jsx): a list
 * loaded once at mount, a selection that defaults to the first bucket, and an
 * open/closed menu that a click outside closes.
 */
module Workspace {
  import opened Wrappers
  import opened JsString
  import opened Fetch

  const ListFallback := "Failed to load buckets"
  const LoadingLabel := "Loading…"
  const NoBucketsLabel := "No buckets found"

  datatype Bucket = Bucket(id: string, name: string, description: Option<string>)

  /** What `res.json().catch(() => ({}))` makes of the body of GET /api/buckets:
      a list, JSON null, or an object (`{}` when the body does not parse). */
  datatype ListBody =
    | Buckets(items: seq<Bucket>)
    | NullBody
    | Other(detail: Option<string>)

  datatype ListReply =
    | ListNetworkError(message: string)
    | ListResponse(status: int, statusText: string, body: ListBody)

  datatype ListResult = Listed(items: seq<Bucket>) | ListFailed(message: string)

  /** The replies the component handles without crashing: a 2xx reply carries a
      list or null, and a failing reply does not carry null. */
  predicate Handled(reply: ListReply) {
    reply.ListResponse? ==>
      (Ok(reply.status) ==> !reply.body.Other?) && (!Ok(reply.status) ==> !reply.body.NullBody?)
  }

  /** The load chain: a 2xx reply lists the buckets in the order received (null
      is the empty list); any other reply is a non-empty message. */
  function ListOutcome(reply: ListReply): (r: ListResult)
    requires Handled(reply)
    ensures r.Listed? <==> reply.ListResponse? && Ok(reply.status)
    ensures r.Listed? && reply.body.Buckets? ==> r.items == reply.body.items
    ensures r.Listed? && reply.body.NullBody? ==> r.items == []
    ensures r.ListFailed? ==> r.message != ""
    ensures reply.ListNetworkError? && reply.message != "" ==> r == ListFailed(reply.message)
    ensures reply.ListNetworkError? && reply.message == "" ==> r == ListFailed(ListFallback)
    ensures reply.ListResponse? && !Ok(reply.status) && reply.body.Other? ==>
      r == ListFailed(ErrorMessage(reply.body.detail.GetOr(""), reply.statusText, ListFallback))
    ensures reply.ListResponse? && !Ok(reply.status) && reply.body.Buckets? ==>
      r == ListFailed(ErrorMessage("", reply.statusText, ListFallback))
  {
    match reply
    case ListNetworkError(m) => ListFailed(OrElse(m, ListFallback))
    case ListResponse(status, statusText, body) =>
      if !Ok(status) then
        var detail := if body.Other? then body.detail.GetOr("") else "";
        ListFailed(OrElse(OrElse(detail, statusText), ListFallback))
      else if body.Buckets? then Listed(body.items)
      else Listed([])
  }

  /** `setSelected(prev => prev || data[0].id)` when the list is non-empty. */
  function AutoSelect(prev: string, data: seq<Bucket>): (r: string)
    ensures |data| == 0 || prev != "" ==> r == prev
    ensures |data| > 0 && prev == "" ==> r == data[0].id
  {
    if |data| > 0 then OrElse(prev, data[0].id) else prev
  }

  /** No bucket before position `i` has the id `id`. */
  predicate NoMatchBefore(bs: seq<Bucket>, id: string, i: int)
    requires 0 <= i <= |bs|
  {
    forall j :: 0 <= j < i ==> bs[j].id != id
  }

  /** `bs.find(b => b.id === id)`: the first bucket with that id, if any. */
  function Find(bs: seq<Bucket>, id: string): (r: Option<Bucket>)
    ensures r.None? <==> NoMatchBefore(bs, id, |bs|)
    ensures r.Some? ==> r.value.id == id
    ensures r.Some? ==> exists i :: 0 <= i < |bs| && bs[i] == r.value && NoMatchBefore(bs, id, i)
  {
    if bs == [] then None
    else if bs[0].id == id then
      assert NoMatchBefore(bs, id, 0);
      Some(bs[0])
    else
      var r := Find(bs[1..], id);
      if r.Some? then
        var i :| 0 <= i < |bs[1..]| && bs[1..][i] == r.value && NoMatchBefore(bs[1..], id, i);
        assert bs[i + 1] == r.value;
        assert NoMatchBefore(bs, id, i + 1) by {
          forall j | 0 <= j < i + 1 ensures bs[j].id != id {
            if j > 0 { assert bs[j] == bs[1..][j - 1]; }
          }
        }
        r
      else
        assert NoMatchBefore(bs, id, |bs|) by {
          forall j | 0 <= j < |bs| ensures bs[j].id != id {
            if j > 0 { assert bs[j] == bs[1..][j - 1]; }
          }
        }
        r
  }

  /** After the first load, the auto-selected id finds the first bucket. */
  lemma AutoSelectFindsFirst(data: seq<Bucket>)
    requires |data| > 0
    ensures Find(data, AutoSelect("", data)) == Some(data[0])
  {
  }

  /** The dropdown button's label (line 72): the current bucket's name, else a
      loading or an empty-list notice. */
  function Label(current: Option<Bucket>, loading: bool): (r: string) {
    if current.Some? then current.value.name
    else if loading then LoadingLabel
    else NoBucketsLabel
  }

  /** The `Workspace` component's state. `mounted` is the load effect's
      `isMounted`; `loadPending` says the mount-time load has not settled yet. */
  class BucketDropdown {
    var buckets: seq<Bucket>
    var selected: string
    var error: string
    var loading: bool
    var open: bool
    var mounted: bool
    var loadPending: bool

    /** The menu is open only over a loaded, non-empty list; before the load
        settles nothing is listed or selected; a non-empty selection names a
        listed bucket. */
    ghost predicate Valid()
      reads this
    {
      && (open ==> !loading && |buckets| > 0)
      && (loadPending ==> loading && buckets == [] && selected == "")
      && (selected != "" ==> exists i :: 0 <= i < |buckets| && buckets[i].id == selected)
    }

    /** Mount: the initial state, with the load effect started (`setLoading(true)`). */
    constructor ()
      ensures Valid()
      ensures buckets == [] && selected == "" && error == "" && loading && !open
      ensures mounted && loadPending
    {
      buckets := [];
      selected := "";
      error := "";
      loading := true;
      open := false;
      mounted := true;
      loadPending := true;
    }

    /** The mount-time load settles. While mounted: a listing replaces `buckets`
        and auto-selects, a failure sets `error` alone, and `loading` ends false.
        After unmount nothing but the settling itself changes. */
    method LoadSettled(reply: ListReply)
      requires Valid() && loadPending && Handled(reply)
      modifies this
      ensures Valid() && !loadPending
      ensures !old(mounted) ==>
        buckets == old(buckets) && selected == old(selected) && error == old(error) && loading == old(loading)
      ensures old(mounted) ==> !loading
      ensures old(mounted) && ListOutcome(reply).Listed? ==>
        buckets == ListOutcome(reply).items && selected == AutoSelect(old(selected), buckets) && error == old(error)
      ensures old(mounted) && ListOutcome(reply).ListFailed? ==>
        buckets == [] && selected == old(selected) && error == ListOutcome(reply).message
      ensures open == old(open) && mounted == old(mounted)
    {
      if mounted {
        match ListOutcome(reply) {
          case Listed(items) =>
            buckets := items;
            selected := AutoSelect(selected, items);
          case ListFailed(m) =>
            error := m;
        }
        loading := false;
      }
      loadPending := false;
    }

    /** The dropdown button: disabled while loading or over an empty list.
        `setOpen(v => !v)` otherwise. */
    method Toggle()
      requires Valid() && mounted
      modifies this
      ensures Valid()
      ensures open == if !loading && |buckets| > 0 then !old(open) else old(open)
      ensures buckets == old(buckets) && selected == old(selected) && error == old(error)
      ensures loading == old(loading) && mounted && loadPending == old(loadPending)
    {
      if !loading && |buckets| > 0 {
        open := !open;
      }
    }

    /** Clicking the `i`-th item of the open menu: select it and close, in one handler. */
    method SelectItem(i: nat)
      requires Valid() && mounted && open && i < |buckets|
      modifies this
      ensures Valid()
      ensures buckets == old(buckets) && selected == buckets[i].id && !open
      ensures error == old(error)
      ensures loading == old(loading) && mounted && loadPending == old(loadPending)
    {
      selected := buckets[i].id;
      open := false;
    }

    /** The document click listener: closes the menu when the dropdown region
        exists and the click lands outside it; otherwise does nothing. */
    method DocumentClick(hasRegion: bool, inside: bool)
      requires Valid() && mounted
      modifies this
      ensures Valid()
      ensures open == (old(open) && !(hasRegion && !inside))
      ensures buckets == old(buckets) && selected == old(selected) && error == old(error)
      ensures loading == old(loading) && mounted && loadPending == old(loadPending)
    {
      if hasRegion && !inside {
        open := false;
      }
    }

    /** The load effect's cleanup: `isMounted = false`. */
    method Unmount()
      requires Valid()
      modifies this
      ensures Valid() && !mounted
      ensures buckets == old(buckets) && selected == old(selected) && error == old(error)
      ensures loading == old(loading) && open == old(open) && loadPending == old(loadPending)
    {
      mounted := false;
    }

    /** `currentBucket`: a non-empty selection always finds its bucket. */
    function CurrentBucket(): (r: Option<Bucket>)
      reads this
      requires Valid()
      ensures selected != "" ==> r.Some? && r.value.id == selected && r.value in buckets
      ensures r.Some? ==> r.value in buckets
    {
      Find(buckets, selected)
    }

    /** The button label: the current bucket's name whenever `find` matches
        (in particular for any non-empty selection), "Loading…" until the load
        settles, and "No buckets found" once it has settled with no match. */
    function ButtonLabel(): (r: string)
      reads this
      requires Valid()
      ensures loadPending ==> r == LoadingLabel
      ensures CurrentBucket().Some? ==> r == CurrentBucket().value.name
      ensures CurrentBucket().None? && !loading ==> r == NoBucketsLabel
      ensures !loading && buckets == [] ==> r == NoBucketsLabel
    {
      Label(CurrentBucket(), loading)
    }

    /** The "No buckets found" entry inside the open menu (lines 78-80) can never show. */
    function MenuShowsEmptyNotice(): (r: bool)
      reads this
      requires Valid()
      ensures !r
    {
      open && |buckets| == 0
    }
  }

  /** Two buckets and no prior selection: the first is selected after the load. */
  method AutoSelectScenario() returns (selected: string, caption: string)
    ensures selected == "b1" && caption == "Alpha"
  {
    var d := new BucketDropdown();
    var items := [Bucket("b1", "Alpha", None), Bucket("b2", "Beta", None)];
    d.LoadSettled(ListResponse(200, "OK", Buckets(items)));
    selected := d.selected;
    caption := d.ButtonLabel();
  }

  /** An empty list: the toggle never opens the menu. */
  method EmptyListScenario() returns (open: bool)
    ensures !open
  {
    var d := new BucketDropdown();
    d.LoadSettled(ListResponse(200, "OK", Buckets([])));
    d.Toggle();
    d.Toggle();
    d.Toggle();
    open := d.open;
  }
}
