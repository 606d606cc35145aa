/** `get_items_by_cat`: pages through the search endpoint of one site and category,
    stepping the offset by 50 per request, for at most 20 requests, flattening every
    listing. The request names no page size: how many listings a page holds is up to
    the server. */
module Pagination {
  import opened Wrappers
  import opened Json
  import opened Flatten

  /** `count_per_request` */
  const CountPerRequest: nat := 50
  /** `max_items` */
  const MaxItems: nat := 1000
  /** `cant = int(max_items / count_per_request)`: the request budget. */
  const Cant: nat := MaxItems / CountPerRequest

  /** The decoded body of one search response: `results` and `paging.total`. */
  datatype Page = Page(results: seq<Item>, total: int)

  /** The query string of one request `/sites/{country}/search?category=...&offset=...`. */
  datatype Query = Query(country: string, category: string, offset: nat)

  /** The search endpoint. `answer` is what it responds to a query (`None`: the request
      or the decoding raises); `requested` is every query sent to it so far. */
  class SearchEndpoint {
    const answer: Query -> Option<Page>
    var requested: seq<Query>

    constructor (answer: Query -> Option<Page>)
      ensures this.answer == answer && requested == []
    {
      this.answer := answer;
      requested := [];
    }

    /** `requests.get(url=url).json()` */
    method Get(q: Query) returns (resp: Option<Page>)
      modifies this
      ensures requested == old(requested) + [q]
      ensures resp == answer(q)
    {
      requested := requested + [q];
      resp := answer(q);
    }
  }

  /** The responses for one site and category, by offset. */
  function Pages(answer: Query -> Option<Page>, country: string, category: string): (pages: nat -> Option<Page>)
  {
    (offset: nat) => answer(Query(country, category, offset))
  }

  /** Python's `map(convert, items)`, consumed at once: one converted value per listing,
      in order. */
  function MapItems<R>(convert: Item -> R, items: seq<Item>): (r: seq<R>)
  {
    seq(|items|, i requires 0 <= i < |items| => convert(items[i]))
  }

  /** The offsets the loop requests when it starts at `offset` with `left` requests of
      its budget to go: a request is always sent, and the next one only if the response
      arrived and the advanced offset does not exceed `paging.total`. */
  function Offsets(pages: nat -> Option<Page>, offset: nat, left: nat): (offsets: seq<nat>)
    decreases left
  {
    if left == 0 then []
    else match pages(offset)
      case None => [offset]
      case Some(page) =>
        if offset + CountPerRequest > page.total then [offset]
        else [offset] + Offsets(pages, offset + CountPerRequest, left - 1)
  }

  /** The listings the loop receives from `offset` on with `left` requests to go, in
      the order they arrive; `None` when a request raises. */
  function Crawl(pages: nat -> Option<Page>, offset: nat, left: nat): (r: Option<seq<Item>>)
    decreases left
  {
    if left == 0 then Some([])
    else match pages(offset)
      case None => None
      case Some(page) =>
        if offset + CountPerRequest > page.total then Some(page.results)
        else Prepend(page.results, Crawl(pages, offset + CountPerRequest, left - 1))
  }

  /** The listings received, converted; an aborted fetch stays aborted. */
  function MapFetched<R>(convert: Item -> R, fetched: Option<seq<Item>>): (r: Option<seq<R>>)
  {
    match fetched
    case None => None
    case Some(items) => Some(MapItems(convert, items))
  }

  lemma MapItemsAppend<R>(convert: Item -> R, a: seq<Item>, b: seq<Item>)
    ensures MapItems(convert, a + b) == MapItems(convert, a) + MapItems(convert, b)
  {
  }

  function Queries(country: string, category: string, offsets: seq<nat>): (r: seq<Query>)
  {
    seq(|offsets|, i requires 0 <= i < |offsets| => Query(country, category, offsets[i]))
  }

  lemma QueriesAppend(country: string, category: string, a: seq<nat>, b: seq<nat>)
    ensures Queries(country, category, a + b) == Queries(country, category, a) + Queries(country, category, b)
  {
  }

  /** What the loop has done once it has sent the requests at `sent` and received
      `received`, with `left` requests of its budget to go from `offset`: the rest of
      the run is the run from `offset`. */
  ghost predicate Progress(pages: nat -> Option<Page>, offset: nat, left: nat, sent: seq<nat>, received: seq<Item>)
  {
    && Offsets(pages, 0, Cant) == sent + Offsets(pages, offset, left)
    && Crawl(pages, 0, Cant) == Prepend(received, Crawl(pages, offset, left))
  }

  lemma ProgressStart(pages: nat -> Option<Page>)
    ensures Progress(pages, 0, Cant, [], [])
  {
    assert [] + Offsets(pages, 0, Cant) == Offsets(pages, 0, Cant);
    PrependEmpty(Crawl(pages, 0, Cant));
  }

  /** A request that raises: it is the last one sent, and the fetch aborts. */
  lemma ProgressFails(pages: nat -> Option<Page>, offset: nat, left: nat, sent: seq<nat>, received: seq<Item>)
    requires Progress(pages, offset, left, sent, received)
    requires left > 0 && pages(offset).None?
    ensures Offsets(pages, 0, Cant) == sent + [offset]
    ensures Crawl(pages, 0, Cant).None?
  {
  }

  /** The last page: the advanced offset exceeds the reported `total`. */
  lemma ProgressStops(pages: nat -> Option<Page>, offset: nat, left: nat, sent: seq<nat>, received: seq<Item>)
    requires Progress(pages, offset, left, sent, received)
    requires left > 0 && pages(offset).Some?
    requires offset + CountPerRequest > pages(offset).value.total
    ensures Offsets(pages, 0, Cant) == sent + [offset]
    ensures Crawl(pages, 0, Cant) == Some(received + pages(offset).value.results)
  {
  }

  /** A page after which the loop goes on at the advanced offset. */
  lemma ProgressContinues(pages: nat -> Option<Page>, offset: nat, left: nat, sent: seq<nat>, received: seq<Item>)
    requires Progress(pages, offset, left, sent, received)
    requires left > 0 && pages(offset).Some?
    requires offset + CountPerRequest <= pages(offset).value.total
    ensures Progress(pages, offset + CountPerRequest, left - 1, sent + [offset], received + pages(offset).value.results)
  {
    var next := offset + CountPerRequest;
    assert sent + ([offset] + Offsets(pages, next, left - 1)) == sent + [offset] + Offsets(pages, next, left - 1);
    PrependAssociative(received, pages(offset).value.results, Crawl(pages, next, left - 1));
  }

  /** The budget is spent. */
  lemma ProgressEnds(pages: nat -> Option<Page>, offset: nat, sent: seq<nat>, received: seq<Item>)
    requires Progress(pages, offset, 0, sent, received)
    ensures Offsets(pages, 0, Cant) == sent
    ensures Crawl(pages, 0, Cant) == Some(received)
  {
    assert sent + [] == sent;
    assert received + [] == received;
  }

  /** The loop of `get_items_by_cat`, with `convert` applied to every listing of every
      page as it arrives. */
  method FetchPages<R>(api: SearchEndpoint, category: string, country: string, convert: Item -> R)
    returns (data: Option<seq<R>>)
    modifies api
    ensures api.requested
         == old(api.requested) + Queries(country, category, Offsets(Pages(api.answer, country, category), 0, Cant))
    ensures data == MapFetched(convert, Crawl(Pages(api.answer, country, category), 0, Cant))
  {
    ghost var pages := Pages(api.answer, country, category);
    ghost var sent: seq<nat> := [];
    ghost var received: seq<Item> := [];
    var acc: seq<R> := [];
    var offset: nat := 0;
    ProgressStart(pages);
    for n := 0 to Cant
      invariant offset == CountPerRequest * n
      invariant api.requested == old(api.requested) + Queries(country, category, sent)
      invariant Progress(pages, offset, Cant - n, sent, received)
      invariant acc == MapItems(convert, received)
    {
      var resp := api.Get(Query(country, category, offset));
      QueriesAppend(country, category, sent, [offset]);
      if resp.None? {
        ProgressFails(pages, offset, Cant - n, sent, received);
        return None;
      }
      var page := resp.value;
      if offset + CountPerRequest > page.total {
        ProgressStops(pages, offset, Cant - n, sent, received);
      } else {
        ProgressContinues(pages, offset, Cant - n, sent, received);
      }
      MapItemsAppend(convert, received, page.results);
      sent := sent + [offset];
      received := received + page.results;
      acc := acc + MapItems(convert, page.results);
      offset := offset + CountPerRequest;
      if offset > page.total {
        data := Some(acc);
        return;
      }
    }
    ProgressEnds(pages, offset, sent, received);
    data := Some(acc);
  }

  /** `get_items_by_cat(category, country)`: the requests it sends and the flattened
      listings it returns. */
  method GetItemsByCat(api: SearchEndpoint, category: string, country: string)
    returns (data: Option<seq<Record>>)
    modifies api
    ensures api.requested
         == old(api.requested) + Queries(country, category, Offsets(Pages(api.answer, country, category), 0, Cant))
    ensures data == MapFetched(MapResult, Crawl(Pages(api.answer, country, category), 0, Cant))
  {
    data := FetchPages(api, category, country, MapResult);
  }

  /** Offsets start at `offset` and each is `count_per_request` past the previous one;
      at most `left` requests are sent, and at least one when the budget allows. */
  lemma {:induction false} OffsetsSpaced(pages: nat -> Option<Page>, offset: nat, left: nat)
    ensures |Offsets(pages, offset, left)| <= left
    ensures left > 0 ==> |Offsets(pages, offset, left)| > 0
    ensures forall k :: 0 <= k < |Offsets(pages, offset, left)| ==>
              Offsets(pages, offset, left)[k] == offset + CountPerRequest * k
    decreases left
  {
    if left > 0 && pages(offset).Some? && offset + CountPerRequest <= pages(offset).value.total {
      var next := offset + CountPerRequest;
      OffsetsSpaced(pages, next, left - 1);
      var offs := Offsets(pages, offset, left);
      assert offs == [offset] + Offsets(pages, next, left - 1);
      forall k | 0 <= k < |offs| ensures offs[k] == offset + CountPerRequest * k {
        if k > 0 {
          assert offs[k] == Offsets(pages, next, left - 1)[k - 1];
        }
      }
    }
  }

  /** The stopping rule: after the `k`-th request another one follows exactly when the
      budget is not spent, the response arrived, and the advanced offset does not exceed
      the `paging.total` it reported. */
  lemma {:induction false} OffsetsContinue(pages: nat -> Option<Page>, offset: nat, left: nat, k: nat)
    requires k < |Offsets(pages, offset, left)|
    ensures var offs := Offsets(pages, offset, left);
      k + 1 < |offs| <==>
        (k + 1 < left && pages(offs[k]).Some? && offs[k] + CountPerRequest <= pages(offs[k]).value.total)
    decreases left
  {
    var offs := Offsets(pages, offset, left);
    OffsetsSpaced(pages, offset, left);
    if pages(offset).Some? && offset + CountPerRequest <= pages(offset).value.total {
      var next := offset + CountPerRequest;
      var rest := Offsets(pages, next, left - 1);
      assert offs == [offset] + rest;
      OffsetsSpaced(pages, next, left - 1);
      if k > 0 {
        OffsetsContinue(pages, next, left - 1, k - 1);
        assert offs[k] == rest[k - 1];
      }
    }
  }

  /** The loop aborts exactly when one of the requests it sends fails. */
  lemma {:induction false} CrawlFails(pages: nat -> Option<Page>, offset: nat, left: nat)
    ensures Crawl(pages, offset, left).None? <==>
      exists k :: 0 <= k < |Offsets(pages, offset, left)| && pages(Offsets(pages, offset, left)[k]).None?
    decreases left
  {
    var offs := Offsets(pages, offset, left);
    if left > 0 && pages(offset).Some? && offset + CountPerRequest <= pages(offset).value.total {
      var next := offset + CountPerRequest;
      var rest := Offsets(pages, next, left - 1);
      CrawlFails(pages, next, left - 1);
      assert offs == [offset] + rest;
      if exists k :: 0 <= k < |offs| && pages(offs[k]).None? {
        var k :| 0 <= k < |offs| && pages(offs[k]).None?;
        assert k > 0 && rest[k - 1] == offs[k];
      }
      if exists k :: 0 <= k < |rest| && pages(rest[k]).None? {
        var k :| 0 <= k < |rest| && pages(rest[k]).None?;
        assert offs[k + 1] == rest[k];
      }
    } else if left > 0 && pages(offset).None? {
      assert offs == [offset];
      assert pages(offs[0]).None?;
    }
  }

  /** The results of the pages at `offsets`, in that order. */
  function Collected(pages: nat -> Option<Page>, offsets: seq<nat>): (r: seq<Item>)
  {
    if offsets == [] then []
    else
      var here := match pages(offsets[0]) case None => [] case Some(page) => page.results;
      here + Collected(pages, offsets[1..])
  }

  /** The loop receives the results of the requested pages, page by page in offset
      order and each page in response order. */
  lemma {:induction false} CrawlCollects(pages: nat -> Option<Page>, offset: nat, left: nat)
    requires Crawl(pages, offset, left).Some?
    ensures Crawl(pages, offset, left).value == Collected(pages, Offsets(pages, offset, left))
    decreases left
  {
    var offs := Offsets(pages, offset, left);
    if left > 0 {
      var here := pages(offset).value.results;
      if offset + CountPerRequest <= pages(offset).value.total {
        var next := offset + CountPerRequest;
        CrawlCollects(pages, next, left - 1);
        assert offs[1..] == Offsets(pages, next, left - 1);
      } else {
        assert offs[1..] == [];
        assert here + [] == here;
      }
    }
  }

  /** With pages of at most `count_per_request` results, `left` requests return at most
      `count_per_request * left` records. */
  lemma {:induction false} CrawlBound(pages: nat -> Option<Page>, offset: nat, left: nat)
    requires forall o: nat :: pages(o).Some? ==> |pages(o).value.results| <= CountPerRequest
    requires Crawl(pages, offset, left).Some?
    ensures |Crawl(pages, offset, left).value| <= CountPerRequest * left
    decreases left
  {
    if left > 0 && offset + CountPerRequest <= pages(offset).value.total {
      CrawlBound(pages, offset + CountPerRequest, left - 1);
    }
  }

  /** `get_items_by_cat` never returns more than `max_items` records when the endpoint
      honours the page size. */
  lemma ItemsByCatBound(pages: nat -> Option<Page>)
    requires forall o: nat :: pages(o).Some? ==> |pages(o).value.results| <= CountPerRequest
    requires Crawl(pages, 0, Cant).Some?
    ensures |MapFetched(MapResult, Crawl(pages, 0, Cant)).value| <= MaxItems
  {
    CrawlBound(pages, 0, Cant);
  }

  /** A first page reporting fewer than `count_per_request` results in all (say 30)
      ends the loop after that single request. */
  lemma SmallTotalOneRequest(pages: nat -> Option<Page>)
    requires pages(0).Some? && pages(0).value.total < CountPerRequest
    ensures Offsets(pages, 0, Cant) == [0]
    ensures Crawl(pages, 0, Cant) == Some(pages(0).value.results)
  {
  }

  function Min(a: int, b: int): (m: int)
  {
    if a <= b then a else b
  }

  /** When every page reports the same `total`, the loop sends `total / 50 + 1`
      requests, capped at the budget. A total that is a multiple of 50 therefore costs
      one request past the last full page, because the loop stops only when the advanced
      offset is strictly greater than `total`. */
  lemma {:induction false} ConstantTotalRequests(pages: nat -> Option<Page>, total: int, offset: nat, left: nat)
    requires forall o: nat :: pages(o).Some? && pages(o).value.total == total
    requires offset <= total
    ensures |Offsets(pages, offset, left)| == Min(left, (total - offset) / CountPerRequest + 1)
    decreases left
  {
    if left > 0 && offset + CountPerRequest <= total {
      ConstantTotalRequests(pages, total, offset + CountPerRequest, left - 1);
      assert (total - offset) / CountPerRequest == (total - offset - CountPerRequest) / CountPerRequest + 1;
    }
  }

  /** Every record `get_items_by_cat` returns is a flattened listing, with its 52 keys. */
  lemma FlattenedKeys(items: seq<Item>)
    ensures forall i :: 0 <= i < |items| ==> MapItems(MapResult, items)[i] == MapResult(items[i])
    ensures forall r :: r in MapItems(MapResult, items) ==> r.Keys == FlatKeys
  {
  }
}
