/** The pagination contract shared by ListDomains and ListRecords: request page after page,
    append each page's items, stop at a response without links or marked as the last page,
    and otherwise ask for the page after the one the response reports as current. */
module Pagination {
  import opened Wrappers
  import opened DnsTypes
  import opened Environment

  /** What one listing produces: its result, and the page numbers it requested, in order. */
  datatype Listing<T> = Listing(result: Result<seq<T>, Error>, pages: seq<int>)

  /** The items of one page in front of what the rest of the listing produced; an error
      from the rest is the whole result. */
  function Prepend<T>(items: seq<T>, rest: Result<seq<T>, Error>): Result<seq<T>, Error> {
    if rest.Success? then Success(items + rest.value) else rest
  }

  lemma PrependNothing<T>(rest: Result<seq<T>, Error>)
    ensures Prepend([], rest) == rest
  {
    if rest.Success? {
      assert [] + rest.value == rest.value;
    }
  }

  lemma PrependPrepend<T>(a: seq<T>, b: seq<T>, rest: Result<seq<T>, Error>)
    ensures Prepend(a + b, rest) == Prepend(a, Prepend(b, rest))
  {
    if rest.Success? {
      assert (a + b) + rest.value == a + (b + rest.value);
    }
  }

  /** A listing that starts by requesting `page` from a service that answers with `script`. */
  function ListAll<T>(script: seq<Response<T>>, page: int): Listing<T>
    decreases |script|
  {
    match NextResponse(script)
    case Failed(e) => Listing(Failure(e), [page])
    case Page(items, links) =>
      if links.None? || links.value.isLastPage then Listing(Success(items), [page])
      else if links.value.currentPage.Failure? then Listing(Failure(links.value.currentPage.error), [page])
      else
        var rest := ListAll(script[1..], links.value.currentPage.value + 1);
        Listing(Prepend(items, rest.result), [page] + rest.pages)
  }

  /** A listing that has already collected `done` from the pages `issued` and goes on as `rest`. */
  function Resume<T>(done: seq<T>, issued: seq<int>, rest: Listing<T>): Listing<T> {
    Listing(Prepend(done, rest.result), issued + rest.pages)
  }

  lemma ResumeStart<T>(l: Listing<T>)
    ensures Resume([], [], l) == l
  {
    PrependNothing(l.result);
    assert [] + l.pages == l.pages;
  }

  /** One step of a listing that has collected `done` from the pages `issued`: the answer to
      the request for `page` either ends it, or adds its items and goes on at the next page. */
  lemma ResumeStep<T>(done: seq<T>, issued: seq<int>, script: seq<Response<T>>, page: int)
    ensures var r := NextResponse(script);
            var l := Resume(done, issued, ListAll(script, page));
            && (r.Failed? ==> l == Listing(Failure(r.err), issued + [page]))
            && (r.Page? && (r.links.None? || r.links.value.isLastPage) ==>
                  l == Listing(Success(done + r.items), issued + [page]))
            && (r.Page? && r.links.Some? && !r.links.value.isLastPage && r.links.value.currentPage.Failure? ==>
                  l == Listing(Failure(r.links.value.currentPage.error), issued + [page]))
            && (Continues(r) ==>
                  l == Resume(done + r.items, issued + [page], ListAll(script[1..], NextPage(r))))
  {
    var r := NextResponse(script);
    if Continues(r) {
      var rest := ListAll(script[1..], NextPage(r));
      PrependPrepend(done, r.items, rest.result);
      assert issued + ([page] + rest.pages) == (issued + [page]) + rest.pages;
    }
  }

  // ---------------------------------------------------------------------------------------
  // An independent description of the same listing.

  /** A response after which the listing asks for another page. */
  predicate Continues<T>(r: Response<T>) {
    r.Page? && r.links.Some? && !r.links.value.isLastPage && r.links.value.currentPage.Success?
  }

  /** The page requested after a response that continues the listing. */
  function NextPage<T>(r: Response<T>): int
    requires Continues(r)
  {
    r.links.value.currentPage.value + 1
  }

  /** The position of the first answer that does not continue the listing (the length of
      the script when every answer continues). */
  function StopIndex<T>(script: seq<Response<T>>): (k: nat)
    ensures k <= |script|
    ensures forall j :: 0 <= j < k ==> Continues(script[j])
    ensures k < |script| ==> !Continues(script[k])
  {
    if script == [] || !Continues(script[0]) then 0 else 1 + StopIndex(script[1..])
  }

  /** What the answer that stops the listing contributes: its items when it has no links or
      is the last page, otherwise the error of the request or of `CurrentPage()`. */
  function Final<T>(r: Response<T>): Result<seq<T>, Error>
    requires !Continues(r)
  {
    match r
    case Failed(e) => Failure(e)
    case Page(items, links) =>
      if links.None? || links.value.isLastPage then Success(items) else Failure(links.value.currentPage.error)
  }

  /** The items of a sequence of answers, in order (an error answer has none). */
  function Items<T>(pages: seq<Response<T>>): seq<T> {
    if pages == [] then [] else (if pages[0].Page? then pages[0].items else []) + Items(pages[1..])
  }

  /** The result a listing should have when its first k answers continue it and the next
      one stops it: the items of those k pages followed by the stopping page's items, or the
      error that stops it and nothing else. */
  function Expected<T>(script: seq<Response<T>>, k: nat): Result<seq<T>, Error>
    requires k <= |script|
    requires forall j :: 0 <= j < k ==> Continues(script[j])
    requires !Continues(NextResponse(script[k..]))
  {
    var last := Final(NextResponse(script[k..]));
    if last.Success? then Success(Items(script[..k]) + last.value) else last
  }

  /** A listing returns exactly the concatenation of the items of every page up to and
      including the one that stops it, or, with no partial result, the error that stops it. */
  lemma {:induction false} ListAllResult<T>(script: seq<Response<T>>, page: int, k: nat)
    requires k <= |script|
    requires forall j :: 0 <= j < k ==> Continues(script[j])
    requires !Continues(NextResponse(script[k..]))
    ensures ListAll(script, page).result == Expected(script, k)
    decreases k
  {
    if k == 0 {
      assert script[k..] == script;
      assert Items(script[..0]) == [];
      var last := Final(NextResponse(script));
      if last.Success? {
        assert Items(script[..0]) + last.value == last.value;
      }
    } else {
      var tail := script[1..];
      var next := NextPage(script[0]);
      assert tail[k - 1..] == script[k..];
      ListAllResult(tail, next, k - 1);
      assert ListAll(script, page).result == Prepend(script[0].items, ListAll(tail, next).result);
      var last := Final(NextResponse(script[k..]));
      if last.Success? {
        assert Items(script[..k]) == script[0].items + Items(tail[..k - 1]) by {
          assert script[..k][1..] == tail[..k - 1];
        }
        assert script[0].items + (Items(tail[..k - 1]) + last.value) == Items(script[..k]) + last.value;
      }
    }
  }

  /** Every script stops a listing somewhere, so the above describes every listing. */
  lemma ListAllStops<T>(script: seq<Response<T>>, page: int)
    ensures !Continues(NextResponse(script[StopIndex(script)..]))
    ensures ListAll(script, page).result == Expected(script, StopIndex(script))
  {
    ListAllResult(script, page, StopIndex(script));
  }

  /** A listing requests `page` first and then, after each page that continues it, the page
      after the one that response reports as current: one request per page up to and
      including the one that stops it. */
  lemma {:induction false} ListAllPages<T>(script: seq<Response<T>>, page: int)
    ensures var k := StopIndex(script);
            var l := ListAll(script, page);
            && |l.pages| == k + 1
            && l.pages[0] == page
            && forall j :: 0 <= j < k ==> l.pages[j + 1] == NextPage(script[j])
    decreases |script|
  {
    if script != [] && Continues(script[0]) {
      var tail := script[1..];
      var next := NextPage(script[0]);
      ListAllPages(tail, next);
      var rest := ListAll(tail, next);
      assert ListAll(script, page).pages == [page] + rest.pages;
      forall j | 0 <= j < StopIndex(script)
        ensures ListAll(script, page).pages[j + 1] == NextPage(script[j])
      {
        if j > 0 {
          assert script[j] == tail[j - 1];
        }
      }
    }
  }
}
