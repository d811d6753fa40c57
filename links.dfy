/** The link store of `src/stores/links.js`: the loaded page of links, the link
    being viewed, statistics, pagination, and the CRUD actions that keep them
    consistent with the server's answers. */
module Links {
  import opened Js
  import opened Http

  const FetchLinksFailed: string := "Failed to fetch links"
  const FetchLinkFailed: string := "Failed to fetch link details"
  const CreateLinkFailed: string := "Failed to create link"
  const UpdateLinkFailed: string := "Failed to update link"
  const DeleteLinkFailed: string := "Failed to delete link"
  const FetchLinkStatsFailed: string := "Failed to fetch link statistics"
  const FetchUserStatsFailed: string := "Failed to fetch user statistics"

  const DefaultPage: int := 1
  const DefaultLimit: int := 20

  /** A link as the server returns it: its `id` and the rest of its fields. */
  datatype Link = Link(id: int, attributes: Json)

  datatype Pagination = Pagination(page: int, limit: int, totalPages: int, totalLinks: int)

  /** `links.findIndex(link => link.id === id)`: the first index whose id
      matches, or -1 when none does. */
  function FindIndex(links: seq<Link>, id: int): (i: int)
    ensures -1 <= i < |links|
    ensures 0 <= i ==> links[i].id == id && forall j :: 0 <= j < i ==> links[j].id != id
    ensures i == -1 <==> forall j :: 0 <= j < |links| ==> links[j].id != id
  {
    if links == [] then -1
    else if links[0].id == id then 0
    else
      var k := FindIndex(links[1..], id);
      if k == -1 then -1 else k + 1
  }

  /** Writing `v` at the first index whose id matches, when there is one: the
      length stays, elements with another id stay, later matches stay. */
  function ReplaceFirst(links: seq<Link>, id: int, v: Link): (r: seq<Link>)
    ensures |r| == |links|
    ensures forall j :: 0 <= j < |links| && links[j].id != id ==> r[j] == links[j]
    ensures (forall j :: 0 <= j < |links| ==> links[j].id != id) ==> r == links
    ensures forall i :: 0 <= i < |links| && links[i].id == id && (forall j :: 0 <= j < i ==> links[j].id != id) ==>
              r[i] == v && forall j :: i < j < |links| ==> r[j] == links[j]
  {
    var i := FindIndex(links, id);
    if i == -1 then links else links[i := v]
  }

  /** `links.filter(link => link.id !== id)`. */
  function Without(links: seq<Link>, id: int): (r: seq<Link>)
    ensures |r| <= |links|
    ensures forall l :: l in r <==> l in links && l.id != id
  {
    if links == [] then []
    else if links[0].id == id then Without(links[1..], id)
    else [links[0]] + Without(links[1..], id)
  }

  /** Filtering keeps the order of what it keeps: it distributes over concatenation. */
  lemma {:induction false} WithoutConcat(a: seq<Link>, b: seq<Link>, id: int)
    ensures Without(a + b, id) == Without(a, id) + Without(b, id)
  {
    if a == [] {
      assert a + b == b;
    } else {
      assert (a + b)[1..] == a[1..] + b;
      WithoutConcat(a[1..], b, id);
    }
  }

  /** Filtering a list without a match leaves it as it is. */
  lemma {:induction false} WithoutNoMatch(links: seq<Link>, id: int)
    requires forall j :: 0 <= j < |links| ==> links[j].id != id
    ensures Without(links, id) == links
  {
    if links != [] {
      WithoutNoMatch(links[1..], id);
    }
  }

  /** Deleting twice is deleting once, and nothing with the id is left to find. */
  lemma WithoutIdempotent(links: seq<Link>, id: int)
    ensures Without(Without(links, id), id) == Without(links, id)
    ensures FindIndex(Without(links, id), id) == -1
  {
  }

  /** Deleting a link just created gives back what deleting it before would. */
  lemma CreateThenDelete(links: seq<Link>, v: Link)
    ensures Without([v] + links, v.id) == Without(links, v.id)
  {
  }

  /** The query of a statistics request: `from` and `to` are sent exactly when they are truthy. */
  function StatsQuery(from: Option<string>, to: Option<string>): (q: map<string, string>)
    ensures "from" in q <==> Truthy(from)
    ensures "to" in q <==> Truthy(to)
    ensures "from" in q ==> q["from"] == from.value
    ensures "to" in q ==> q["to"] == to.value
    ensures q.Keys <= {"from", "to"}
  {
    var q0: map<string, string> := map[];
    var q1 := if Truthy(from) then q0["from" := from.value] else q0;
    if Truthy(to) then q1["to" := to.value] else q1
  }

  class LinksStore {
    var links: seq<Link>
    var currentLink: Option<Link>
    var linkStats: Option<Json>
    var userStats: Option<Json>
    var loading: bool
    var error: Option<string>
    var pagination: Pagination

    constructor ()
      ensures links == [] && currentLink == None && linkStats == None && userStats == None
      ensures !loading && error == None
      ensures pagination == Pagination(DefaultPage, DefaultLimit, 0, 0)
    {
      links := [];
      currentLink := None;
      linkStats := None;
      userStats := None;
      loading := false;
      error := None;
      pagination := Pagination(DefaultPage, DefaultLimit, 0, 0);
    }

    /** `page` and `limit` default to 1 and 20 when not given. */
    method FetchLinks(page: Option<int>, limit: Option<int>, response: Outcome<seq<Link>>)
      modifies this
      ensures !loading
      ensures currentLink == old(currentLink) && linkStats == old(linkStats) && userStats == old(userStats)
      ensures response.Ok? ==>
        && links == response.data && error == None
        && pagination == old(pagination).(page := if page.Some? then page.value else DefaultPage,
                                          limit := if limit.Some? then limit.value else DefaultLimit)
      ensures response.Err? ==>
        && links == old(links) && pagination == old(pagination)
        && error == Some(ErrorText(response.error, FetchLinksFailed))
    {
      var p := if page.Some? then page.value else DefaultPage;
      var l := if limit.Some? then limit.value else DefaultLimit;
      loading := true;
      error := None;
      match response {
        case Ok(data) =>
          links := data;
          pagination := pagination.(page := p, limit := l);
        case Err(e) =>
          error := Some(ErrorText(e, FetchLinksFailed));
      }
      loading := false;
    }

    method FetchLink(response: Outcome<Link>) returns (r: Option<Link>)
      modifies this
      ensures !loading
      ensures links == old(links) && pagination == old(pagination)
      ensures linkStats == old(linkStats) && userStats == old(userStats)
      ensures response.Ok? ==> currentLink == Some(response.data) && r == Some(response.data) && error == None
      ensures response.Err? ==>
        && currentLink == old(currentLink) && r == None
        && error == Some(ErrorText(response.error, FetchLinkFailed))
    {
      loading := true;
      error := None;
      match response {
        case Ok(data) =>
          currentLink := Some(data);
          r := Some(data);
        case Err(e) =>
          error := Some(ErrorText(e, FetchLinkFailed));
          r := None;
      }
      loading := false;
    }

    /** The new link goes to the front of the list. */
    method CreateLink(response: Outcome<Link>) returns (r: Option<Link>)
      modifies this
      ensures !loading
      ensures currentLink == old(currentLink) && pagination == old(pagination)
      ensures linkStats == old(linkStats) && userStats == old(userStats)
      ensures response.Ok? ==>
        && links == [response.data] + old(links) && |links| == |old(links)| + 1
        && r == Some(response.data) && error == None
      ensures response.Err? ==>
        && links == old(links) && r == None
        && error == Some(ErrorText(response.error, CreateLinkFailed))
    {
      loading := true;
      error := None;
      match response {
        case Ok(data) =>
          links := [data] + links;
          r := Some(data);
        case Err(e) =>
          error := Some(ErrorText(e, CreateLinkFailed));
          r := None;
      }
      loading := false;
    }

    /** The server's version replaces the first loaded link with that id, and
        the current link when it is the one with that id. */
    method UpdateLink(id: int, response: Outcome<Link>) returns (r: Option<Link>)
      modifies this
      ensures !loading
      ensures pagination == old(pagination) && linkStats == old(linkStats) && userStats == old(userStats)
      ensures response.Ok? ==>
        && links == ReplaceFirst(old(links), id, response.data)
        && currentLink == (if old(currentLink).Some? && old(currentLink).value.id == id
                           then Some(response.data) else old(currentLink))
        && r == Some(response.data) && error == None
      ensures response.Err? ==>
        && links == old(links) && currentLink == old(currentLink) && r == None
        && error == Some(ErrorText(response.error, UpdateLinkFailed))
    {
      loading := true;
      error := None;
      match response {
        case Ok(data) =>
          var index := FindIndex(links, id);
          if index != -1 {
            links := links[index := data];
          }
          if currentLink.Some? && currentLink.value.id == id {
            currentLink := Some(data);
          }
          r := Some(data);
        case Err(e) =>
          error := Some(ErrorText(e, UpdateLinkFailed));
          r := None;
      }
      loading := false;
    }

    /** Every loaded link with that id goes; the current link too when it has that id. */
    method DeleteLink(id: int, response: Outcome<()>) returns (ok: bool)
      modifies this
      ensures !loading && ok == response.Ok?
      ensures pagination == old(pagination) && linkStats == old(linkStats) && userStats == old(userStats)
      ensures response.Ok? ==>
        && links == Without(old(links), id)
        && currentLink == (if old(currentLink).Some? && old(currentLink).value.id == id
                           then None else old(currentLink))
        && error == None
      ensures response.Err? ==>
        && links == old(links) && currentLink == old(currentLink)
        && error == Some(ErrorText(response.error, DeleteLinkFailed))
    {
      loading := true;
      error := None;
      match response {
        case Ok(_) =>
          links := Without(links, id);
          if currentLink.Some? && currentLink.value.id == id {
            currentLink := None;
          }
          ok := true;
        case Err(e) =>
          error := Some(ErrorText(e, DeleteLinkFailed));
          ok := false;
      }
      loading := false;
    }

    /** Returns the statistics (or null) and the query the request was sent with. */
    method FetchLinkStats(from: Option<string>, to: Option<string>, response: Outcome<Json>)
      returns (r: Option<Json>, query: map<string, string>)
      modifies this
      ensures !loading && query == StatsQuery(from, to)
      ensures links == old(links) && currentLink == old(currentLink)
      ensures pagination == old(pagination) && userStats == old(userStats)
      ensures response.Ok? ==> linkStats == Some(response.data) && r == Some(response.data) && error == None
      ensures response.Err? ==>
        && linkStats == old(linkStats) && r == None
        && error == Some(ErrorText(response.error, FetchLinkStatsFailed))
    {
      loading := true;
      error := None;
      var params: map<string, string> := map[];
      if Truthy(from) {
        params := params["from" := from.value];
      }
      if Truthy(to) {
        params := params["to" := to.value];
      }
      query := params;
      match response {
        case Ok(data) =>
          linkStats := Some(data);
          r := Some(data);
        case Err(e) =>
          error := Some(ErrorText(e, FetchLinkStatsFailed));
          r := None;
      }
      loading := false;
    }

    method FetchUserStats(response: Outcome<Json>) returns (r: Option<Json>)
      modifies this
      ensures !loading
      ensures links == old(links) && currentLink == old(currentLink)
      ensures pagination == old(pagination) && linkStats == old(linkStats)
      ensures response.Ok? ==> userStats == Some(response.data) && r == Some(response.data) && error == None
      ensures response.Err? ==>
        && userStats == old(userStats) && r == None
        && error == Some(ErrorText(response.error, FetchUserStatsFailed))
    {
      loading := true;
      error := None;
      match response {
        case Ok(data) =>
          userStats := Some(data);
          r := Some(data);
        case Err(e) =>
          error := Some(ErrorText(e, FetchUserStatsFailed));
          r := None;
      }
      loading := false;
    }
  }
}
