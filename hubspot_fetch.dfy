/** Reading a HubSpot CRM object list page by page (`fetch_hubspot_data`) and
    gathering contacts, companies, deals and tickets into one list
    (`get_items_hubspot`). The HTTP server is replaced by the replies it
    gives: for one endpoint, the sequence of replies to the successive page
    requests. */
module HubSpotFetch {
  import opened Json
  import opened HubSpotItems

  /** The `paging` part of a page: a `next` link carrying the `after` cursor,
      or none. */
  datatype Paging = Last | Next(after: Value)

  /** The reply to one page request: `Raised` when reading it throws, that
      is when `requests.get` or `response.json()` throws, and also for a 200
      reply whose shape makes the loop throw (a null `results`, `paging` or
      `next`, or a result whose `properties` is null); otherwise the status
      code, the `results` (an absent key reads as no results) and the paging
      information. */
  datatype Reply = Raised | Page(status: int, results: seq<HubSpotObject>, paging: Paging)

  /** One GET request: the object endpoint, the `Authorization` header and
      the `limit` and `after` query parameters. */
  datatype Request = Request(endpoint: string, authorization: string, limit: int, after: Option<string>)

  const PageLimit: int := 100

  /** The endpoints read, in the order they are read, with the item type
      each one produces. */
  const Endpoints: seq<(string, string)> :=
    [("contacts", "contact"), ("companies", "company"), ("deals", "deal"), ("tickets", "ticket")]

  /** A reply after which no further page is requested. */
  predicate Final(r: Reply) {
    r.Raised? || r.status != 200 || r.paging.Last?
  }

  /** The server ends the pagination at some point. */
  predicate Ends(pages: seq<Reply>) {
    exists k :: 0 <= k < |pages| && Final(pages[k])
  }

  /** The replies after a reply that does not end the loop still end it. */
  lemma EndsAfter(pages: seq<Reply>)
    requires Ends(pages) && !Final(pages[0])
    ensures Ends(pages[1..])
  {
    var k :| 0 <= k < |pages| && Final(pages[k]);
    assert pages[1..][k - 1] == pages[k];
  }

  /** The `after` query parameter a request carries for the cursor value
      `after`: sent only when the cursor is truthy. */
  function AfterParam(after: Value): Option<string> {
    if Truthy(after) then Some(after.s) else None
  }

  /** The `after` query parameter of the request that follows reply `r`. */
  function CursorAfter(r: Reply): Option<string> {
    if r.Page? && r.paging.Next? then AfterParam(r.paging.after) else None
  }

  /** Each result mapped through `CreateItem`, in order. */
  function MapItems(results: seq<HubSpotObject>, itemType: string): seq<IntegrationItem> {
    if results == [] then []
    else MapItems(results[..|results| - 1], itemType) + [CreateItem(results[|results| - 1], itemType)]
  }

  /** Items collected so far, put in front of what the rest of the reading
      yields; a throw discards them. */
  function Prepend(items: seq<IntegrationItem>, rest: Outcome<seq<IntegrationItem>>): Outcome<seq<IntegrationItem>> {
    if rest.Ok? then Ok(items + rest.value) else rest
  }

  /** The outcome of reading one endpoint from its replies: a throw loses the
      whole endpoint, a non-200 reply ends the reading with what was
      collected, and a 200 reply adds its results and goes on only when it
      has a `next` link. */
  function Fetched(pages: seq<Reply>, itemType: string): Outcome<seq<IntegrationItem>>
    requires Ends(pages)
    decreases |pages|
  {
    var reply := pages[0];
    if reply.Raised? then Crash
    else if reply.status != 200 then Ok([])
    else if reply.paging.Last? then Ok(MapItems(reply.results, itemType))
    else
      EndsAfter(pages);
      Prepend(MapItems(reply.results, itemType), Fetched(pages[1..], itemType))
  }

  /** The requests sent for the given replies, the first one carrying the
      `after` parameter `after`. */
  function Requests(pages: seq<Reply>, endpoint: string, authorization: string, after: Option<string>): seq<Request>
    requires Ends(pages)
    decreases |pages|
  {
    var first := Request(endpoint, authorization, PageLimit, after);
    if Final(pages[0]) then [first]
    else
      EndsAfter(pages);
      [first] + Requests(pages[1..], endpoint, authorization, CursorAfter(pages[0]))
  }

  /** A reply that does not end the loop adds its items in front of what the
      later replies yield, and its request in front of theirs. */
  lemma Continue(pages: seq<Reply>, endpoint: string, authorization: string, after: Option<string>, itemType: string)
    requires Ends(pages) && !Final(pages[0])
    ensures Ends(pages[1..])
    ensures Fetched(pages, itemType) == Prepend(MapItems(pages[0].results, itemType), Fetched(pages[1..], itemType))
    ensures Requests(pages, endpoint, authorization, after)
      == [Request(endpoint, authorization, PageLimit, after)] + Requests(pages[1..], endpoint, authorization, CursorAfter(pages[0]))
  {
    EndsAfter(pages);
  }

  lemma PrependTwice(a: seq<IntegrationItem>, b: seq<IntegrationItem>, rest: Outcome<seq<IntegrationItem>>)
    ensures Prepend(a, Prepend(b, rest)) == Prepend(a + b, rest)
  {
    if rest.Ok? {
      assert a + (b + rest.value) == (a + b) + rest.value;
    }
  }

  /** The inner loop of `fetch_hubspot_data`: appends each result of a page,
      mapped through `CreateItem`, in order. */
  method AppendItems(allItems: seq<IntegrationItem>, results: seq<HubSpotObject>, itemType: string)
    returns (extended: seq<IntegrationItem>)
    ensures extended == allItems + MapItems(results, itemType)
  {
    extended := allItems;
    for j := 0 to |results|
      invariant extended == allItems + MapItems(results[..j], itemType)
    {
      assert results[..j + 1][..j] == results[..j];
      assert MapItems(results[..j + 1], itemType) == MapItems(results[..j], itemType) + [CreateItem(results[j], itemType)];
      extended := extended + [CreateItem(results[j], itemType)];
    }
    assert results[..|results|] == results;
  }

  /** `fetch_hubspot_data`: requests pages until one is not a 200 or has no
      `next` link; `pages[k]` answers the k-th request. */
  method FetchData(pages: seq<Reply>, accessToken: string, endpoint: string, itemType: string)
    returns (r: Outcome<seq<IntegrationItem>>, sent: seq<Request>)
    requires Ends(pages)
    ensures r == Fetched(pages, itemType)
    ensures sent == Requests(pages, endpoint, "Bearer " + accessToken, None)
  {
    var authorization := "Bearer " + accessToken;
    var allItems: seq<IntegrationItem> := [];
    var after: Value := Null;
    sent := [];
    var rest := pages;
    ghost var total := Fetched(pages, itemType);
    ghost var requested := Requests(pages, endpoint, authorization, None);
    assert total == Prepend([], Fetched(rest, itemType)) by {
      if total.Ok? { assert [] + total.value == total.value; }
    }
    while true
      invariant Ends(rest)
      invariant total == Prepend(allItems, Fetched(rest, itemType))
      invariant requested == sent + Requests(rest, endpoint, authorization, AfterParam(after))
      decreases |rest|
    {
      var reply := rest[0];
      var request := Request(endpoint, authorization, PageLimit, AfterParam(after));
      ghost var sentBefore := sent;
      sent := sent + [request];
      if reply.Raised? {
        r := Crash;
        return;
      }
      if reply.status != 200 {
        assert allItems + [] == allItems;
        break;
      }
      ghost var before := allItems;
      allItems := AppendItems(allItems, reply.results, itemType);
      if reply.paging.Last? {
        break;
      }
      Continue(rest, endpoint, authorization, AfterParam(after), itemType);
      PrependTwice(before, MapItems(reply.results, itemType), Fetched(rest[1..], itemType));
      assert sentBefore + ([request] + Requests(rest[1..], endpoint, authorization, CursorAfter(reply)))
        == sent + Requests(rest[1..], endpoint, authorization, CursorAfter(reply));
      after := reply.paging.after;
      rest := rest[1..];
    }
    r := Ok(allItems);
  }

  /** The position of the reply that ends the reading. */
  function FirstFinal(pages: seq<Reply>): (k: nat)
    requires Ends(pages)
    ensures k < |pages| && Final(pages[k])
    ensures forall j :: 0 <= j < k ==> !Final(pages[j])
    decreases |pages|
  {
    if Final(pages[0]) then 0
    else
      EndsAfter(pages);
      var k := FirstFinal(pages[1..]);
      assert forall j :: 0 < j <= k ==> pages[j] == pages[1..][j - 1];
      k + 1
  }

  /** `MapItems` keeps the results' order: one item per result, the k-th
      made from the k-th result. */
  lemma {:induction false} MapItemsSpec(results: seq<HubSpotObject>, itemType: string)
    ensures |MapItems(results, itemType)| == |results|
    ensures forall k :: 0 <= k < |results| ==> MapItems(results, itemType)[k] == CreateItem(results[k], itemType)
    decreases |results|
  {
    if results != [] {
      var n := |results| - 1;
      var init := results[..n];
      MapItemsSpec(init, itemType);
      var items := MapItems(results, itemType);
      assert items == MapItems(init, itemType) + [CreateItem(results[n], itemType)];
      forall k | 0 <= k < |results|
        ensures items[k] == CreateItem(results[k], itemType)
      {
        if k < n {
          assert items[k] == MapItems(init, itemType)[k];
          assert init[k] == results[k];
        } else {
          assert items[k] == CreateItem(results[n], itemType);
        }
      }
    }
  }

  /** The results of the given pages mapped through `CreateItem`, page after
      page; a thrown reply has none. */
  function PageItems(pages: seq<Reply>, itemType: string): seq<IntegrationItem> {
    if pages == [] then []
    else (if pages[0].Page? then MapItems(pages[0].results, itemType) else []) + PageItems(pages[1..], itemType)
  }

  /** The outcome of one endpoint, read off the reply that ends the reading:
      a throw loses everything; otherwise the results of every 200 page up
      to it, in order (a non-200 reply adds none, a last page adds its own). */
  lemma {:induction false} FetchedByFirstFinal(pages: seq<Reply>, itemType: string)
    requires Ends(pages)
    ensures var k := FirstFinal(pages); var last := pages[k];
      && (last.Raised? ==> Fetched(pages, itemType) == Crash)
      && (last.Page? && last.status != 200 ==> Fetched(pages, itemType) == Ok(PageItems(pages[..k], itemType)))
      && (last.Page? && last.status == 200 ==> Fetched(pages, itemType) == Ok(PageItems(pages[..k + 1], itemType)))
    decreases |pages|
  {
    var k := FirstFinal(pages);
    if k == 0 {
      assert pages[..0] == [];
      assert pages[..1] == [pages[0]] && pages[..1][1..] == [];
      if pages[0].Page? {
        var items := MapItems(pages[0].results, itemType);
        assert PageItems(pages[..1], itemType) == items + [] == items;
      }
    } else {
      EndsAfter(pages);
      var rest := pages[1..];
      assert FirstFinal(rest) == k - 1;
      FetchedByFirstFinal(rest, itemType);
      var head := MapItems(pages[0].results, itemType);
      assert pages[..k][1..] == rest[..k - 1];
      assert pages[..k + 1][1..] == rest[..k];
      assert PageItems(pages[..k], itemType) == head + PageItems(rest[..k - 1], itemType);
      assert PageItems(pages[..k + 1], itemType) == head + PageItems(rest[..k], itemType);
    }
  }

  /** Every request of one reading goes to the same endpoint with the same
      `Authorization` header and `limit=100`; the first carries the starting
      cursor and each later one the truthy cursor of the reply before it.
      One request is sent per reply up to the one that ends the reading. */
  lemma {:induction false} RequestsShape(pages: seq<Reply>, endpoint: string, authorization: string, after: Option<string>)
    requires Ends(pages)
    ensures var sent := Requests(pages, endpoint, authorization, after);
      && |sent| == FirstFinal(pages) + 1
      && sent[0].after == after
      && (forall j :: 0 <= j < |sent| ==>
            sent[j].endpoint == endpoint && sent[j].authorization == authorization && sent[j].limit == PageLimit)
      && (forall j :: 0 < j < |sent| ==> sent[j].after == CursorAfter(pages[j - 1]))
    decreases |pages|
  {
    if !Final(pages[0]) {
      EndsAfter(pages);
      var rest := pages[1..];
      RequestsShape(rest, endpoint, authorization, CursorAfter(pages[0]));
      var tail := Requests(rest, endpoint, authorization, CursorAfter(pages[0]));
      var sent := Requests(pages, endpoint, authorization, after);
      assert sent == [Request(endpoint, authorization, PageLimit, after)] + tail;
      assert FirstFinal(pages) == FirstFinal(rest) + 1;
      forall j | 1 < j < |sent|
        ensures sent[j].after == CursorAfter(pages[j - 1])
      {
        assert sent[j] == tail[j - 1] && pages[j - 1] == rest[j - 2];
      }
    }
  }

  /** Every item one reading yields carries the item type, a
      `hubspot_{type}_` id and the parent `HubSpot`. */
  lemma {:induction false} FetchedTagged(pages: seq<Reply>, itemType: string)
    requires Ends(pages)
    ensures Fetched(pages, itemType).Ok? ==>
      forall x :: x in Fetched(pages, itemType).value ==>
        && x.itemType == itemType && x.parentId == Null && x.parentPathOrName == "HubSpot"
        && |IdPrefix + itemType + "_"| <= |x.id| && x.id[..|IdPrefix + itemType + "_"|] == IdPrefix + itemType + "_"
    decreases |pages|
  {
    var reply := pages[0];
    if reply.Page? && reply.status == 200 {
      MapItemsSpec(reply.results, itemType);
      forall j | 0 <= j < |reply.results| {
        CreateItemFields(reply.results[j], itemType);
      }
      if !Final(reply) {
        EndsAfter(pages);
        FetchedTagged(pages[1..], itemType);
      }
    }
  }

  /** Every endpoint's replies end the pagination. */
  predicate Serves(server: string -> seq<Reply>) {
    forall k :: 0 <= k < |Endpoints| ==> Ends(server(Endpoints[k].0))
  }

  /** What endpoint `k` adds to the aggregate: its items, or nothing when
      reading it threw. */
  function Contribution(server: string -> seq<Reply>, k: nat): seq<IntegrationItem>
    requires k < |Endpoints| && Serves(server)
  {
    match Fetched(server(Endpoints[k].0), Endpoints[k].1)
    case Ok(items) => items
    case _ => []
  }

  /** The contributions of the first `n` endpoints, in endpoint order. */
  function Aggregate(server: string -> seq<Reply>, n: nat): seq<IntegrationItem>
    requires n <= |Endpoints| && Serves(server)
  {
    if n == 0 then [] else Aggregate(server, n - 1) + Contribution(server, n - 1)
  }

  /** The items of type `t`, in order. */
  function OfType(items: seq<IntegrationItem>, t: string): seq<IntegrationItem> {
    if items == [] then []
    else (if items[0].itemType == t then [items[0]] else []) + OfType(items[1..], t)
  }

  lemma {:induction false} OfTypeAppend(a: seq<IntegrationItem>, b: seq<IntegrationItem>, t: string)
    ensures OfType(a + b, t) == OfType(a, t) + OfType(b, t)
    decreases |a|
  {
    if a != [] {
      assert (a + b)[1..] == a[1..] + b;
      OfTypeAppend(a[1..], b, t);
    } else {
      assert a + b == b;
    }
  }

  lemma {:induction false} OfTypeUniform(items: seq<IntegrationItem>, t: string)
    requires forall x :: x in items ==> x.itemType == items[0].itemType
    ensures items != [] && items[0].itemType == t ==> OfType(items, t) == items
    ensures items != [] && items[0].itemType != t ==> OfType(items, t) == []
    decreases |items|
  {
    if |items| > 1 {
      assert items[1] in items;
      OfTypeUniform(items[1..], t);
    }
  }

  /** The four endpoints produce four different item types. */
  lemma TypesDistinct(i: nat, j: nat)
    requires i < |Endpoints| && j < |Endpoints| && i != j
    ensures Endpoints[i].1 != Endpoints[j].1
  {
    assert Endpoints[i].1[0..2] != Endpoints[j].1[0..2] || Endpoints[i].1[2] != Endpoints[j].1[2];
  }

  /** What endpoint `j` adds is made of items of its own type only. */
  lemma ContributionOfType(server: string -> seq<Reply>, j: nat, k: nat)
    requires j < |Endpoints| && k < |Endpoints| && Serves(server)
    ensures OfType(Contribution(server, j), Endpoints[k].1) == if j == k then Contribution(server, j) else []
  {
    var items := Contribution(server, j);
    FetchedTagged(server(Endpoints[j].0), Endpoints[j].1);
    if j != k {
      TypesDistinct(j, k);
    }
    if items != [] {
      assert items[0] in items;
      OfTypeUniform(items, Endpoints[k].1);
    }
  }

  /** The aggregate lists the contacts, then the companies, the deals and the
      tickets, and the items of each type are exactly what its endpoint
      yielded: an endpoint whose reading throws contributes nothing and
      leaves the others' items as they are. */
  lemma {:induction false} EndpointsIndependent(server: string -> seq<Reply>, k: nat)
    requires k < |Endpoints| && Serves(server)
    ensures Aggregate(server, |Endpoints|)
      == Contribution(server, 0) + Contribution(server, 1) + Contribution(server, 2) + Contribution(server, 3)
    ensures OfType(Aggregate(server, |Endpoints|), Endpoints[k].1) == Contribution(server, k)
  {
    var c0, c1, c2, c3 := Contribution(server, 0), Contribution(server, 1), Contribution(server, 2), Contribution(server, 3);
    assert Aggregate(server, 1) == [] + c0 == c0;
    assert Aggregate(server, 2) == c0 + c1;
    assert Aggregate(server, 3) == c0 + c1 + c2;
    assert Aggregate(server, 4) == c0 + c1 + c2 + c3;
    PrefixOfType(server, k, |Endpoints|);
  }

  lemma {:induction false} PrefixOfType(server: string -> seq<Reply>, k: nat, n: nat)
    requires k < |Endpoints| && n <= |Endpoints| && Serves(server)
    ensures OfType(Aggregate(server, n), Endpoints[k].1) == if k < n then Contribution(server, k) else []
    decreases n
  {
    if n > 0 {
      var t := Endpoints[k].1;
      var prev := Aggregate(server, n - 1);
      var last := Contribution(server, n - 1);
      assert Aggregate(server, n) == prev + last;
      PrefixOfType(server, k, n - 1);
      OfTypeAppend(prev, last, t);
      ContributionOfType(server, n - 1, k);
      if k < n - 1 {
        assert OfType(prev, t) + [] == OfType(prev, t);
      } else if k == n - 1 {
        assert OfType(prev, t) == [] && [] + last == last;
      }
    }
  }

  /** Reading endpoint `k` extends the aggregate by its contribution. */
  lemma AggregateStep(server: string -> seq<Reply>, k: nat, items: Outcome<seq<IntegrationItem>>)
    requires k < |Endpoints| && Serves(server)
    requires items == Fetched(server(Endpoints[k].0), Endpoints[k].1)
    ensures Aggregate(server, k + 1) == Aggregate(server, k) + (if items.Ok? then items.value else [])
  {
  }

  /** `get_items_hubspot`: refuses credentials without a truthy
      `access_token`; otherwise reads the four endpoints in order, skipping
      any whose reading throws. */
  method GetItems(credentials: Object, server: string -> seq<Reply>) returns (r: Outcome<seq<IntegrationItem>>)
    requires Serves(server)
    ensures !Truthy(Get(credentials, "access_token")) ==> r == HttpError(400, "No access token found")
    ensures Truthy(Get(credentials, "access_token")) ==> r == Ok(Aggregate(server, |Endpoints|))
  {
    var accessToken := Get(credentials, "access_token");
    if !Truthy(accessToken) {
      return HttpError(400, "No access token found");
    }
    var allItems: seq<IntegrationItem> := [];
    for k := 0 to |Endpoints|
      invariant allItems == Aggregate(server, k)
    {
      var endpoint := Endpoints[k].0;
      var items, _ := FetchData(server(endpoint), accessToken.s, endpoint, Endpoints[k].1);
      AggregateStep(server, k, items);
      if items.Ok? {
        allItems := allItems + items.value;
      }
    }
    r := Ok(allItems);
  }
}
