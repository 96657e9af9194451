/**
 * The field-extraction rules of `DataParser`. An HTML page is represented by
 * what its XPath queries return: strings for `text()`, `@href` and `@value`
 * results, a class-token list per star icon, a list of text fragments per
 * feature row, and one sub-record per review block. The extraction rules are
 * functions and methods over those sequences, and the `get_*` operations add
 * the short-circuit on the HTTP status of the page request.
 */
module DataParser {

  import opened Wrappers
  import opened Text

  const StatusOk := 200

  // Fallback values and markers used by the rules.
  const NoName := "Нет названия"
  const NoPrice := "Нет цены"
  const NoReviewsCount := "0"
  const UnknownAuthor := "Неизвестный автор"
  const NoDate := "Нет даты"
  const FullStar := "ty-icon-star"
  const HalfStar := "ty-icon-star-half"
  const OutOfStockMarker := "отсутствует"

  // Keys of the personal-info dictionary.
  const EmailKey := "email"
  const FirstNameKey := "first_name"
  const LastNameKey := "last_name"
  const CityKey := "city"

  /** The whitespace-separated tokens of one element's `class` attribute. */
  type ClassTokens = seq<string>

  /** The `@value` lists of the four profile inputs (ids email, elm_15,
      elm_17 and elm_23). */
  datatype ProfilePage = ProfilePage(
    emails: seq<string>, firstNames: seq<string>, lastNames: seq<string>, cities: seq<string>)

  /** The `@href` list of the `product-title` links. */
  datatype WishlistPage = WishlistPage(productLinks: seq<string>)

  /** What the queries relative to one `ty-discussion-post__content` block
      return. */
  datatype ReviewBlock = ReviewBlock(
    authors: seq<string>, stars: seq<ClassTokens>, dates: seq<string>, messageFragments: seq<string>)

  /** What the queries on a product page return: the title, the two price
      spans, the star icons of the product rating block, the review-count
      link, the value fragments of each `ty-product-feature` row, and the
      review blocks, all in document order. */
  datatype ProductPage = ProductPage(
    titles: seq<string>,
    retailPrices: seq<string>,
    wholesalePrices: seq<string>,
    ratingStars: seq<ClassTokens>,
    reviewLinks: seq<string>,
    featureRows: seq<seq<string>>,
    reviewBlocks: seq<ReviewBlock>)

  datatype Review = Review(author: string, rating: real, date: string, message: string)

  /** The seven-key dictionary `get_product_details` returns for a page it
      could fetch; the keys are the seven fields. */
  datatype ProductDetails = ProductDetails(
    name: string,
    priceRetail: string,
    priceWholesale: string,
    rating: real,
    reviewsCount: string,
    storesCount: nat,
    reviews: seq<Review>)

  /** The first match with surrounding whitespace removed, or `fallback` when
      the query matched nothing. */
  function FirstStrippedOr(matches: seq<string>, fallback: string): (r: string)
    ensures matches == [] ==> r == fallback
    ensures matches != [] ==> IsStripOf(r, matches[0])
  {
    if matches != [] then StripPads(matches[0]); Strip(matches[0]) else fallback
  }

  // ---------------------------------------------------------------------
  // Personal information

  /** One profile field: the first `@value`, stripped. There is no fallback:
      with no match the source raises `IndexError`, so a match is required. */
  function InputValue(values: seq<string>): (r: string)
    requires values != []
    ensures IsStripOf(r, values[0])
  {
    StripPads(values[0]);
    Strip(values[0])
  }

  predicate HasProfileFields(page: ProfilePage) {
    page.emails != [] && page.firstNames != [] && page.lastNames != [] && page.cities != []
  }

  /** The four-key dictionary `get_personal_info` builds. */
  function ProfileDict(email: string, firstName: string, lastName: string, city: string): (r: map<string, string>)
    ensures r.Keys == {EmailKey, FirstNameKey, LastNameKey, CityKey}
    ensures r[EmailKey] == email && r[FirstNameKey] == firstName
    ensures r[LastNameKey] == lastName && r[CityKey] == city
  {
    map[EmailKey := email, FirstNameKey := firstName, LastNameKey := lastName, CityKey := city]
  }

  function GetPersonalInfo(status: int, page: ProfilePage): (r: map<string, string>)
    requires status == StatusOk ==> HasProfileFields(page)
    ensures status != StatusOk ==> r == map[]
    ensures status == StatusOk ==>
      && r.Keys == {EmailKey, FirstNameKey, LastNameKey, CityKey}
      && IsStripOf(r[EmailKey], page.emails[0])
      && IsStripOf(r[FirstNameKey], page.firstNames[0])
      && IsStripOf(r[LastNameKey], page.lastNames[0])
      && IsStripOf(r[CityKey], page.cities[0])
  {
    if status == StatusOk then
      ProfileDict(InputValue(page.emails), InputValue(page.firstNames),
        InputValue(page.lastNames), InputValue(page.cities))
    else
      map[]
  }

  // ---------------------------------------------------------------------
  // Wishlist

  function GetWishlistProducts(status: int, page: WishlistPage): (r: seq<string>)
    ensures status == StatusOk ==> r == page.productLinks
    ensures status != StatusOk ==> r == []
  {
    if status == StatusOk then page.productLinks else []
  }

  // ---------------------------------------------------------------------
  // Product name, prices, review count

  function ProductName(titles: seq<string>): (r: string)
    ensures titles == [] ==> r == NoName
    ensures titles != [] ==> IsStripOf(r, titles[0])
  {
    FirstStrippedOr(titles, NoName)
  }

  function PriceRetail(prices: seq<string>): (r: string)
    ensures prices == [] ==> r == NoPrice
    ensures prices != [] ==> IsStripOf(r, prices[0])
  {
    FirstStrippedOr(prices, NoPrice)
  }

  function PriceWholesale(prices: seq<string>): (r: string)
    ensures prices == [] ==> r == NoPrice
    ensures prices != [] ==> IsStripOf(r, prices[0])
  {
    FirstStrippedOr(prices, NoPrice)
  }

  /** The stripped link text up to its first space ("12 отзывов" gives
      "12"), or "0" when there is no review link. */
  function ReviewsCount(links: seq<string>): (r: string)
    ensures links == [] ==> r == NoReviewsCount
    ensures links != [] ==>
      var t := Strip(links[0]);
      && r <= t
      && ' ' !in r
      && (r == t || t[|r|] == ' ')
  {
    if links != [] then BeforeFirstSpace(Strip(links[0])) else NoReviewsCount
  }

  // ---------------------------------------------------------------------
  // Star ratings

  /** A full star scores 1; an icon that is not a full star but is a half
      star scores 0.5; any other icon scores 0. */
  function StarScore(classes: ClassTokens): (r: real)
    ensures r == 1.0 <==> FullStar in classes
    ensures r == 0.5 <==> FullStar !in classes && HalfStar in classes
    ensures r == 0.0 <==> FullStar !in classes && HalfStar !in classes
  {
    if FullStar in classes then 1.0 else if HalfStar in classes then 0.5 else 0.0
  }

  /** The sum of the scores of the selected icons. */
  function StarsRating(stars: seq<ClassTokens>): (r: real)
    ensures 0.0 <= r <= |stars| as real
  {
    if stars == [] then 0.0
    else StarsRating(stars[..|stars| - 1]) + StarScore(stars[|stars| - 1])
  }

  /** The loop of `_parse_rating`, also the inner loop of `_parse_reviews`. */
  method ParseRating(stars: seq<ClassTokens>) returns (total: real)
    ensures total == StarsRating(stars)
    ensures 0.0 <= total <= |stars| as real
  {
    total := 0.0;
    for i := 0 to |stars|
      invariant total == StarsRating(stars[..i])
    {
      assert stars[..i + 1][..i] == stars[..i];
      if FullStar in stars[i] {
        total := total + 1.0;
      } else if HalfStar in stars[i] {
        total := total + 0.5;
      }
    }
    assert stars[..|stars|] == stars;
  }

  function FullCount(stars: seq<ClassTokens>): nat {
    if stars == [] then 0
    else FullCount(stars[..|stars| - 1]) + (if FullStar in stars[|stars| - 1] then 1 else 0)
  }

  /** Icons that count as half stars: a half-star token and no full-star one. */
  function HalfCount(stars: seq<ClassTokens>): nat {
    if stars == [] then 0
    else HalfCount(stars[..|stars| - 1])
         + (if FullStar !in stars[|stars| - 1] && HalfStar in stars[|stars| - 1] then 1 else 0)
  }

  /** rating = (full stars) + 0.5 * (half stars). */
  lemma {:induction false} RatingByCounts(stars: seq<ClassTokens>)
    ensures StarsRating(stars) == FullCount(stars) as real + 0.5 * HalfCount(stars) as real
    ensures FullCount(stars) + HalfCount(stars) <= |stars|
  {
    if stars != [] {
      RatingByCounts(stars[..|stars| - 1]);
    }
  }

  lemma {:induction false} RatingAppend(s: seq<ClassTokens>, t: seq<ClassTokens>)
    ensures StarsRating(s + t) == StarsRating(s) + StarsRating(t)
  {
    if t == [] {
      assert s + t == s;
    } else {
      assert (s + t)[..|s + t| - 1] == s + t[..|t| - 1];
      assert (s + t)[|s + t| - 1] == t[|t| - 1];
      RatingAppend(s, t[..|t| - 1]);
    }
  }

  lemma RatingSingleton(x: ClassTokens)
    ensures StarsRating([x]) == StarScore(x)
  {
    assert [x][..0] == [];
  }

  lemma SplitAt(t: seq<ClassTokens>, i: nat)
    requires i < |t|
    ensures t == t[..i] + ([t[i]] + t[i + 1..])
  {
  }

  /** Taking one icon out of the list takes its score off the rating. */
  lemma RatingRemoveAt(t: seq<ClassTokens>, i: nat)
    requires i < |t|
    ensures StarsRating(t) == StarsRating(t[..i] + t[i + 1..]) + StarScore(t[i])
  {
    var a, x, b := t[..i], t[i], t[i + 1..];
    SplitAt(t, i);
    RatingAppend(a, [x] + b);
    RatingAppend([x], b);
    RatingSingleton(x);
    RatingAppend(a, b);
  }

  lemma MultisetRemoveAt(t: seq<ClassTokens>, i: nat)
    requires i < |t|
    ensures multiset(t[..i] + t[i + 1..]) == multiset(t) - multiset{t[i]}
  {
    assert t == t[..i] + [t[i]] + t[i + 1..];
  }

  /** The order of the icons does not matter: any rearrangement of the same
      icons has the same rating. */
  lemma {:induction false} RatingOrderIndependent(s: seq<ClassTokens>, t: seq<ClassTokens>)
    requires multiset(s) == multiset(t)
    ensures StarsRating(s) == StarsRating(t)
    decreases |s|
  {
    if s == [] {
      assert |t| == |multiset(t)| == 0;
    } else {
      var x := s[|s| - 1];
      var s' := s[..|s| - 1];
      assert s == s' + [x];
      assert multiset(s') == multiset(s) - multiset{x};
      assert x in multiset(t);
      var i :| 0 <= i < |t| && t[i] == x;
      RatingRemoveAt(t, i);
      MultisetRemoveAt(t, i);
      RatingOrderIndependent(s', t[..i] + t[i + 1..]);
    }
  }

  // ---------------------------------------------------------------------
  // Store availability

  /** A feature row counts when it has value text and its first fragment,
      lower-cased, does not contain "отсутствует". */
  predicate InStock(values: seq<string>)
    ensures InStock(values) ==> values != []
    ensures values != [] && |values[0]| < |OutOfStockMarker| ==> InStock(values)
  {
    values != [] && !Contains(Lower(values[0]), OutOfStockMarker)
  }

  function CountInStock(rows: seq<seq<string>>): (c: nat)
    ensures c <= |rows|
  {
    if rows == [] then 0
    else CountInStock(rows[..|rows| - 1]) + (if InStock(rows[|rows| - 1]) then 1 else 0)
  }

  /** The loop of `_parse_stores_count`. */
  method ParseStoresCount(rows: seq<seq<string>>) returns (count: nat)
    ensures count == CountInStock(rows)
    ensures count <= |rows|
  {
    count := 0;
    for i := 0 to |rows|
      invariant count == CountInStock(rows[..i])
    {
      assert rows[..i + 1][..i] == rows[..i];
      var values := rows[i];
      if values != [] && !Contains(Lower(values[0]), OutOfStockMarker) {
        count := count + 1;
      }
    }
    assert rows[..|rows|] == rows;
  }

  /** Every row counts exactly when the count is the number of rows, and no
      row counts exactly when the count is 0. */
  lemma {:induction false} CountInStockExtremes(rows: seq<seq<string>>)
    ensures CountInStock(rows) == |rows| <==> forall k :: 0 <= k < |rows| ==> InStock(rows[k])
    ensures CountInStock(rows) == 0 <==> forall k :: 0 <= k < |rows| ==> !InStock(rows[k])
  {
    if rows != [] {
      var init := rows[..|rows| - 1];
      CountInStockExtremes(init);
      assert forall k :: 0 <= k < |init| ==> init[k] == rows[k];
      if CountInStock(rows) == |rows| {
        assert CountInStock(init) == |init|;
      }
    }
  }

  /** Example: a row reading "Товар отсутствует в продаже" does not count,
      and neither does a row with no value text. */
  lemma OutOfStockExample()
    ensures !InStock(["Товар отсутствует в продаже"])
    ensures !InStock([])
  {
    var s := Lower("Товар отсутствует в продаже");
    assert s[6..] == "отсутствует в продаже";
    assert OutOfStockMarker <= s[6..];
  }

  /** A row reading "В наличии" counts: it is shorter than the marker. */
  lemma InStockExample()
    ensures InStock(["В наличии"])
  {
    var s := Lower("В наличии");
    assert |s| < |OutOfStockMarker|;
  }

  // ---------------------------------------------------------------------
  // Reviews

  /** The fragments that are not blank, each stripped, in order. */
  function NonBlankStripped(fragments: seq<string>): seq<string> {
    if fragments == [] then []
    else
      var head := Strip(fragments[0]);
      (if head != [] then [head] else []) + NonBlankStripped(fragments[1..])
  }

  /** Every fragment is blank: whitespace only, or empty. */
  predicate AllBlank(fragments: seq<string>) {
    forall k :: 0 <= k < |fragments| ==> AllWhitespace(fragments[k])
  }

  /** The kept fragments are non-empty and trimmed. */
  lemma {:induction false} NonBlankStrippedAreTrimmed(fragments: seq<string>)
    ensures forall p :: p in NonBlankStripped(fragments) ==> p != [] && IsTrimmed(p)
  {
    if fragments != [] {
      NonBlankStrippedAreTrimmed(fragments[1..]);
    }
  }

  /** No fragment is kept exactly when every fragment is blank. */
  lemma {:induction false} NonBlankStrippedEmpty(fragments: seq<string>)
    ensures NonBlankStripped(fragments) == [] <==> AllBlank(fragments)
  {
    if fragments != [] {
      var tail := fragments[1..];
      NonBlankStrippedEmpty(tail);
      var head := Strip(fragments[0]);
      assert NonBlankStripped(fragments) == (if head != [] then [head] else []) + NonBlankStripped(tail);
      AllBlankCons(fragments);
    }
  }

  lemma AllBlankCons(fragments: seq<string>)
    requires fragments != []
    ensures AllBlank(fragments) <==> AllWhitespace(fragments[0]) && AllBlank(fragments[1..])
  {
    var tail := fragments[1..];
    if AllWhitespace(fragments[0]) && AllBlank(tail) {
      forall k | 0 <= k < |fragments|
        ensures AllWhitespace(fragments[k])
      {
        if k > 0 {
          assert fragments[k] == tail[k - 1];
        }
      }
    }
    if AllBlank(fragments) {
      forall k | 0 <= k < |tail|
        ensures AllWhitespace(tail[k])
      {
        assert tail[k] == fragments[k + 1];
      }
    }
  }

  /** The message: the non-blank fragments, stripped and joined by single
      spaces. It is empty exactly when every fragment is blank, and it never
      begins or ends with whitespace. */
  function ReviewMessage(fragments: seq<string>): (r: string)
    ensures IsTrimmed(r)
  {
    NonBlankStrippedAreTrimmed(fragments);
    JoinTrimmed(NonBlankStripped(fragments));
    JoinWithSpace(NonBlankStripped(fragments))
  }

  lemma ReviewMessageShape(fragments: seq<string>)
    ensures ReviewMessage(fragments) == [] <==> AllBlank(fragments)
  {
    NonBlankStrippedAreTrimmed(fragments);
    NonBlankStrippedEmpty(fragments);
    JoinTrimmed(NonBlankStripped(fragments));
  }

  /** The record `_parse_reviews` builds for one review block. */
  function ReviewOf(block: ReviewBlock): (r: Review)
    ensures block.authors == [] ==> r.author == UnknownAuthor
    ensures block.authors != [] ==> IsStripOf(r.author, block.authors[0])
    ensures r.rating == StarsRating(block.stars) && 0.0 <= r.rating <= |block.stars| as real
    ensures block.dates == [] ==> r.date == NoDate
    ensures block.dates != [] ==> IsStripOf(r.date, block.dates[0])
    ensures r.message == ReviewMessage(block.messageFragments)
  {
    Review(FirstStrippedOr(block.authors, UnknownAuthor),
           StarsRating(block.stars),
           FirstStrippedOr(block.dates, NoDate),
           ReviewMessage(block.messageFragments))
  }

  /** `f` applied to each element, in order. */
  function MapSeq<A, B>(f: A -> B, s: seq<A>): seq<B>
  {
    if s == [] then [] else MapSeq(f, s[..|s| - 1]) + [f(s[|s| - 1])]
  }

  /** One result per element, the k-th made from the k-th element. */
  lemma {:induction false} MapSeqElementwise<A, B>(f: A -> B, s: seq<A>)
    ensures |MapSeq(f, s)| == |s|
    ensures forall k :: 0 <= k < |s| ==> MapSeq(f, s)[k] == f(s[k])
  {
    if s != [] {
      MapSeqElementwise(f, s[..|s| - 1]);
    }
  }

  lemma MapSeqExtend<A, B>(f: A -> B, s: seq<A>, i: nat)
    requires i < |s|
    ensures MapSeq(f, s[..i + 1]) == MapSeq(f, s[..i]) + [f(s[i])]
  {
    assert s[..i + 1][..i] == s[..i];
  }

  /** The reviews of the blocks, in document order. */
  function ReviewsOf(blocks: seq<ReviewBlock>): seq<Review>
  {
    MapSeq(ReviewOf, blocks)
  }

  /** The loop of `_parse_reviews`: one review per block, in document order. */
  method ParseReviews(blocks: seq<ReviewBlock>) returns (reviews: seq<Review>)
    ensures reviews == ReviewsOf(blocks)
  {
    reviews := [];
    for i := 0 to |blocks|
      invariant reviews == ReviewsOf(blocks[..i])
    {
      var review := ParseReview(blocks[i]);
      MapSeqExtend(ReviewOf, blocks, i);
      reviews := reviews + [review];
    }
    assert blocks[..|blocks|] == blocks;
  }

  /** The body of that loop: the fields of one review block. */
  method ParseReview(block: ReviewBlock) returns (review: Review)
    ensures review == ReviewOf(block)
  {
    var author := FirstStrippedOr(block.authors, UnknownAuthor);
    var rating := ParseRating(block.stars);
    var date := FirstStrippedOr(block.dates, NoDate);
    var message := ReviewMessage(block.messageFragments);
    review := Review(author, rating, date, message);
  }

  // ---------------------------------------------------------------------
  // Product page

  /** `get_product_details`: `None` (the empty dictionary) when the request
      did not return 200, otherwise all seven fields, each by its rule. */
  method GetProductDetails(status: int, page: ProductPage) returns (d: Option<ProductDetails>)
    ensures d == None <==> status != StatusOk
    ensures d.Some? ==>
      var p := d.value;
      && p.name == ProductName(page.titles)
      && p.priceRetail == PriceRetail(page.retailPrices)
      && p.priceWholesale == PriceWholesale(page.wholesalePrices)
      && p.rating == StarsRating(page.ratingStars)
      && p.reviewsCount == ReviewsCount(page.reviewLinks)
      && p.storesCount == CountInStock(page.featureRows)
      && p.reviews == ReviewsOf(page.reviewBlocks)
  {
    if status != StatusOk {
      return None;
    }
    var rating := ParseRating(page.ratingStars);
    var storesCount := ParseStoresCount(page.featureRows);
    var reviews := ParseReviews(page.reviewBlocks);
    d := Some(ProductDetails(
      ProductName(page.titles),
      PriceRetail(page.retailPrices),
      PriceWholesale(page.wholesalePrices),
      rating,
      ReviewsCount(page.reviewLinks),
      storesCount,
      reviews));
  }

  /** Example: an email input whose value is " a@b.com " gives the email
      "a@b.com". */
  lemma TrimmedEmailExample(page: ProfilePage)
    requires HasProfileFields(page) && page.emails[0] == " a@b.com "
    ensures GetPersonalInfo(StatusOk, page)[EmailKey] == "a@b.com"
  {
    var v := "a@b.com";
    assert IsTrimmed(v) by {
      assert v[0] == 'a' && v[|v| - 1] == 'm';
    }
    assert AllWhitespace(" ");
    assert page.emails[0] == " " + v + " ";
    StripOfPadded(" ", v, " ");
    assert InputValue(page.emails) == v;
  }
}
