/** The page loop of the certificate listing (pkg/aliyun/cas_sdk.go). */
module Paging {
  import opened Wrappers

  const PAGE_SIZE := 50
  const MAX_PAGES := 200

  datatype Order = Order(certId: Option<int>, name: string)
  datatype Summary = Summary(certId: int, name: string)
  datatype Error = TooManyPages | CallFailed(code: string)

  /** What can go wrong at one page: the call fails, or it answers without a body. */
  datatype Trouble = Fails(page: nat, e: Error) | Blank(page: nat)

  /** A short page is the last one; the total the server may report is not consulted. */
  predicate ShouldFetchNextPage(got: int, size: int, page: int) {
    got > 0 && size > 0 && got >= size && page < MAX_PAGES
  }

  function Min(a: int, b: int): int {
    if a < b then a else b
  }

  function Page(orders: seq<Order>, page: nat): seq<Order>
    requires page >= 1
  {
    orders[Min(PAGE_SIZE * (page - 1), |orders|)..Min(PAGE_SIZE * page, |orders|)]
  }

  /** Entries without an id are skipped, the others keep their order. */
  function Listed(orders: seq<Order>): seq<Summary> {
    if orders == [] then []
    else
      var last := orders[|orders| - 1];
      Listed(orders[..|orders| - 1]) + (if last.certId.None? then [] else [Summary(last.certId.value, last.name)])
  }

  lemma {:induction false} ListedConcat(a: seq<Order>, b: seq<Order>)
    ensures Listed(a + b) == Listed(a) + Listed(b)
  {
    if b == [] {
      assert a + b == a;
    } else {
      var t := a + b;
      assert t[..|t| - 1] == a + b[..|b| - 1];
      ListedConcat(a, b[..|b| - 1]);
    }
  }

  /** A page adds its entries to those before it; it is short exactly when it is the last. */
  lemma PageExtends(orders: seq<Order>, page: nat)
    requires page >= 1 && PAGE_SIZE * (page - 1) <= |orders|
    ensures var before, got := orders[..PAGE_SIZE * (page - 1)], |Page(orders, page)|;
            && got <= PAGE_SIZE && (got == PAGE_SIZE <==> PAGE_SIZE * page <= |orders|)
            && Listed(before) + Listed(Page(orders, page)) == Listed(orders[..Min(PAGE_SIZE * page, |orders|)])
            && (got < PAGE_SIZE ==> page == |orders| / PAGE_SIZE + 1 && orders[..Min(PAGE_SIZE * page, |orders|)] == orders)
  {
    var start, list := PAGE_SIZE * (page - 1), Page(orders, page);
    ListedConcat(orders[..start], list);
    assert orders[..start] + list == orders[..start + |list|];
  }

  lemma EmptyListed()
    ensures Listed([]) == []
  {
  }

  /** The page that ends the loop. */
  function LastPage(orders: seq<Order>): nat {
    Min(|orders| / PAGE_SIZE + 1, MAX_PAGES)
  }

  predicate Reached(trouble: Option<Trouble>, orders: seq<Order>) {
    trouble.Some? && 1 <= trouble.value.page <= LastPage(orders)
  }

  method Append(out: seq<Summary>, page: seq<Order>) returns (r: seq<Summary>)
    ensures r == out + Listed(page)
  {
    r := out;
    for i := 0 to |page|
      invariant r == out + Listed(page[..i])
    {
      assert page[..i + 1][..i] == page[..i];
      if page[i].certId.Some? { r := r + [Summary(page[i].certId.value, page[i].name)]; }
    }
    assert page[..|page|] == page;
  }

  /** Fewer than 10000 orders are listed completely and in order, in one call per full page and one more;
      from 10000 on the listing fails, after exactly 200 calls. An answer without a body, however,
      passes for the end: the listing is then cut short without an error. */
  method FindUploaded(orders: seq<Order>, trouble: Option<Trouble>) returns (r: Result<seq<Summary>, Error>, calls: nat)
    ensures !Reached(trouble, orders) ==>
              if |orders| < 10000
              then r == Ok(Listed(orders)) && calls == |orders| / 50 + 1
              else r == Err(TooManyPages) && calls == 200
    ensures Reached(trouble, orders) ==>
              && calls == trouble.value.page
              && r == if trouble.value.Fails? then Err(trouble.value.e)
                      else Ok(Listed(orders[..50 * (trouble.value.page - 1)]))
  {
    hide Listed, Page;
    var out, page := [], 1;
    EmptyListed();
    calls := 0;
    assert orders[..0] == [];
    while true
      invariant 1 <= page <= LastPage(orders) && calls == page - 1
      invariant PAGE_SIZE * (page - 1) <= |orders|
      invariant trouble.Some? ==> trouble.value.page < 1 || page <= trouble.value.page
      invariant out == Listed(orders[..PAGE_SIZE * (page - 1)])
      decreases MAX_PAGES - page
    {
      calls := calls + 1;
      if trouble.Some? && trouble.value.page == page {
        if trouble.value.Fails? { return Err(trouble.value.e), calls; }
        return Ok(out), calls;
      }
      var list := Page(orders, page);
      out := Append(out, list);
      PageExtends(orders, page);
      if !ShouldFetchNextPage(|list|, PAGE_SIZE, page) {
        if |list| >= PAGE_SIZE && page >= MAX_PAGES { return Err(TooManyPages), calls; }
        break;
      }
      page := page + 1;
    }
    r := Ok(out);
  }
}
