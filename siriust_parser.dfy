/**
 * `SiriustParser.run`: log in, fetch and save the personal information,
 * fetch the wishlist, save it, then fetch each product and save the details
 * that are not empty. The collaborators are replaced by what they return,
 * and the run produces the trace of the calls it makes on them.
 */
module SiriustParser {

  import opened Wrappers
  import opened DataParser
  import opened Storages

  /** One call on the authenticator, the parser or the storage. */
  datatype Call =
    | Login
    | FetchPersonalInfo
    | StorePersonalInfo(info: PersonalInfo)
    | FetchWishlist
    | StoreWishlist(urls: seq<string>)
    | FetchProductDetails(url: string)
    | StoreProductDetails(details: ProductDetails)

  /** One iteration of the product loop: fetch the link, and save the details
      when they are not empty. */
  function ProductStep(url: string, fetch: string -> Option<ProductDetails>): seq<Call> {
    [FetchProductDetails(url)]
    + (if fetch(url).Some? then [StoreProductDetails(fetch(url).value)] else [])
  }

  /** The calls of the product loop over `links`. */
  function ProductLoop(links: seq<string>, fetch: string -> Option<ProductDetails>): seq<Call> {
    if links == [] then []
    else ProductLoop(links[..|links| - 1], fetch) + ProductStep(links[|links| - 1], fetch)
  }

  /** The links fetched in a trace, in call order. */
  function FetchedUrls(trace: seq<Call>): seq<string> {
    if trace == [] then []
    else FetchedUrls(trace[..|trace| - 1])
         + (if trace[|trace| - 1].FetchProductDetails? then [trace[|trace| - 1].url] else [])
  }

  /** The product details saved in a trace, in call order. */
  function StoredDetails(trace: seq<Call>): seq<ProductDetails> {
    if trace == [] then []
    else StoredDetails(trace[..|trace| - 1])
         + (if trace[|trace| - 1].StoreProductDetails? then [trace[|trace| - 1].details] else [])
  }

  /** The details of the links whose fetch did not come back empty, in link
      order. */
  function NonEmptyDetails(links: seq<string>, fetch: string -> Option<ProductDetails>): seq<ProductDetails> {
    if links == [] then []
    else NonEmptyDetails(links[..|links| - 1], fetch)
         + (if fetch(links[|links| - 1]).Some? then [fetch(links[|links| - 1]).value] else [])
  }

  lemma {:induction false} FetchedUrlsAppend(s: seq<Call>, t: seq<Call>)
    ensures FetchedUrls(s + t) == FetchedUrls(s) + FetchedUrls(t)
  {
    if t == [] {
      assert s + t == s;
    } else {
      assert (s + t)[..|s + t| - 1] == s + t[..|t| - 1];
      FetchedUrlsAppend(s, t[..|t| - 1]);
    }
  }

  lemma {:induction false} StoredDetailsAppend(s: seq<Call>, t: seq<Call>)
    ensures StoredDetails(s + t) == StoredDetails(s) + StoredDetails(t)
  {
    if t == [] {
      assert s + t == s;
    } else {
      assert (s + t)[..|s + t| - 1] == s + t[..|t| - 1];
      StoredDetailsAppend(s, t[..|t| - 1]);
    }
  }

  /** A trace without product fetches or saves lists none. */
  lemma {:induction false} NoProductCalls(trace: seq<Call>)
    requires forall k :: 0 <= k < |trace| ==>
      !trace[k].FetchProductDetails? && !trace[k].StoreProductDetails?
    ensures FetchedUrls(trace) == [] && StoredDetails(trace) == []
  {
    if trace != [] {
      NoProductCalls(trace[..|trace| - 1]);
    }
  }

  /** The product loop fetches every link once, in list order. */
  lemma {:induction false} ProductLoopFetchesEachLink(links: seq<string>, fetch: string -> Option<ProductDetails>)
    ensures FetchedUrls(ProductLoop(links, fetch)) == links
  {
    if links != [] {
      var init := links[..|links| - 1];
      var url := links[|links| - 1];
      ProductLoopFetchesEachLink(init, fetch);
      FetchedUrlsAppend(ProductLoop(init, fetch), ProductStep(url, fetch));
      var step := ProductStep(url, fetch);
      FetchedUrlsAppend([FetchProductDetails(url)], step[1..]);
      assert step == [FetchProductDetails(url)] + step[1..];
      assert [FetchProductDetails(url)][..0] == [];
      if |step| == 2 {
        assert step[1..][..0] == [];
      }
      assert links == init + [url];
    }
  }

  /** The product loop saves exactly the non-empty details, in link order. */
  lemma {:induction false} ProductLoopStoresNonEmpty(links: seq<string>, fetch: string -> Option<ProductDetails>)
    ensures StoredDetails(ProductLoop(links, fetch)) == NonEmptyDetails(links, fetch)
  {
    if links != [] {
      var init := links[..|links| - 1];
      var url := links[|links| - 1];
      ProductLoopStoresNonEmpty(init, fetch);
      var step := ProductStep(url, fetch);
      StoredDetailsAppend(ProductLoop(init, fetch), step);
      StoredDetailsAppend([FetchProductDetails(url)], step[1..]);
      assert step == [FetchProductDetails(url)] + step[1..];
      assert [FetchProductDetails(url)][..0] == [];
      if |step| == 2 {
        assert step[1..][..0] == [];
      }
    }
  }

  /** Call `k` of a product-loop trace: a product fetch, or a product save
      right after the fetch of a link whose details it saves. */
  predicate LoopCallOk(trace: seq<Call>, k: nat, fetch: string -> Option<ProductDetails>)
    requires k < |trace|
  {
    || trace[k].FetchProductDetails?
    || (trace[k].StoreProductDetails? && k > 0 && trace[k - 1].FetchProductDetails?
        && fetch(trace[k - 1].url) == Some(trace[k].details))
  }

  /** Inside the product loop the only calls are product fetches and product
      saves, and each save comes right after the fetch of the link whose
      details it saves. */
  lemma {:induction false} ProductLoopStoreFollowsFetch(links: seq<string>, fetch: string -> Option<ProductDetails>)
    ensures forall k :: 0 <= k < |ProductLoop(links, fetch)| ==> LoopCallOk(ProductLoop(links, fetch), k, fetch)
  {
    if links != [] {
      var init := links[..|links| - 1];
      var url := links[|links| - 1];
      ProductLoopStoreFollowsFetch(init, fetch);
      var prev := ProductLoop(init, fetch);
      var step := ProductStep(url, fetch);
      var all := ProductLoop(links, fetch);
      assert all == prev + step;
      forall k | 0 <= k < |all|
        ensures LoopCallOk(all, k, fetch)
      {
        if k < |prev| {
          assert LoopCallOk(prev, k, fetch);
          assert all[k] == prev[k];
          if k > 0 {
            assert all[k - 1] == prev[k - 1];
          }
        } else {
          assert all[k] == step[k - |prev|];
          if k == |prev| + 1 {
            assert all[k - 1] == step[0];
          }
        }
      }
    }
  }

  /** `run`. `loginOk` is what `login` returns, `personalInfo` what
      `get_personal_info` returns, `wishlist` what `get_wishlist_products`
      returns, and `fetch` what `get_product_details` returns for a link
      (`None` for the empty dictionary). */
  method Run(loginOk: bool, personalInfo: PersonalInfo, wishlist: seq<string>,
             fetch: string -> Option<ProductDetails>) returns (trace: seq<Call>)
    ensures !loginOk ==> trace == [Login]
    ensures loginOk ==>
      && |trace| >= 4
      && trace[..4] == [Login, FetchPersonalInfo, StorePersonalInfo(personalInfo), FetchWishlist]
    ensures loginOk && wishlist == [] ==> |trace| == 4
    ensures loginOk && wishlist != [] ==>
      && |trace| >= 5
      && trace[4] == StoreWishlist(wishlist)
      && trace[5..] == ProductLoop(wishlist, fetch)
    ensures FetchedUrls(trace) == if loginOk then wishlist else []
    ensures StoredDetails(trace) == if loginOk then NonEmptyDetails(wishlist, fetch) else []
  {
    trace := [Login];
    NoProductCalls(trace);
    if !loginOk {
      return;
    }
    trace := [Login, FetchPersonalInfo, StorePersonalInfo(personalInfo), FetchWishlist];
    NoProductCalls(trace);
    if wishlist == [] {
      return;
    }
    var head := trace + [StoreWishlist(wishlist)];
    NoProductCalls(head);
    var calls := RunProductLoop(wishlist, fetch);
    trace := head + calls;
    assert trace[..4] == head[..4];
    FetchedUrlsAppend(head, calls);
    StoredDetailsAppend(head, calls);
    ProductLoopFetchesEachLink(wishlist, fetch);
    ProductLoopStoresNonEmpty(wishlist, fetch);
  }

  /** The `for link in product_links` loop of `run`. */
  method RunProductLoop(links: seq<string>, fetch: string -> Option<ProductDetails>) returns (calls: seq<Call>)
    ensures calls == ProductLoop(links, fetch)
  {
    calls := [];
    for i := 0 to |links|
      invariant calls == ProductLoop(links[..i], fetch)
    {
      assert links[..i + 1][..i] == links[..i];
      var link := links[i];
      calls := calls + [FetchProductDetails(link)];
      var details := fetch(link);
      if details.Some? {
        calls := calls + [StoreProductDetails(details.value)];
      }
    }
    assert links[..|links|] == links;
  }

  /** A wishlist page that does not come back with 200 yields no links, so a
      run with it fetches no product at all. */
  method RunWithFailedWishlist(personalInfo: PersonalInfo, status: int, page: WishlistPage,
                               fetch: string -> Option<ProductDetails>) returns (trace: seq<Call>)
    requires status != StatusOk
    ensures trace == [Login, FetchPersonalInfo, StorePersonalInfo(personalInfo), FetchWishlist]
    ensures FetchedUrls(trace) == [] && StoredDetails(trace) == []
  {
    trace := Run(true, personalInfo, GetWishlistProducts(status, page), fetch);
  }
}
