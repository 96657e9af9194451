/**
 * The two storage sinks. `JsonStorage` keeps three lists in memory and
 * rewrites its whole file after every save; `SQLiteStorage` is modelled by
 * its tables as in-memory sequences of rows. Every save catches its own
 * failures: none of them raises to the caller.
 */
module Storages {

  import opened Text
  import opened DataParser

  /** The personal-info dictionary handed to a save: the four-key dictionary
      `get_personal_info` builds, or the empty one it returns on failure. */
  type PersonalInfo = map<string, string>

  predicate Distinct(s: seq<string>) {
    forall i, j :: 0 <= i < j < |s| ==> s[i] != s[j]
  }

  // =======================================================================
  // Flat-file storage

  /** The JSON document: exactly three named slots, each a list. */
  datatype JsonDocument = JsonDocument(
    personalInfo: seq<PersonalInfo>,
    wishlistProducts: seq<string>,
    productDetails: seq<ProductDetails>)

  /** How one `_save_to_file` call ends: the document is written; `open`
      fails, so the file is untouched; or `open(..., "w")` succeeds and so
      truncates the file, and then `json.dump` or the final flush fails. */
  datatype WriteOutcome = Written | OpenFailed | FailedAfterOpen

  /** What `fileName` holds as far as this storage is concerned: nothing
      written yet, a whole document, or the truncated remains of a write
      that failed after opening (empty, or the start of a document). */
  datatype FileState = Unwritten | Holds(doc: JsonDocument) | Damaged

  /** The file after one write of `doc`. */
  function AfterWrite(before: FileState, doc: JsonDocument, outcome: WriteOutcome): FileState
  {
    match outcome
    case Written => Holds(doc)
    case OpenFailed => before
    case FailedAfterOpen => Damaged
  }

  /** The file after a series of writes, each of a document with its outcome,
      in order. */
  function AfterWrites(before: FileState, writes: seq<(JsonDocument, WriteOutcome)>): FileState
  {
    if writes == [] then before
    else
      var last := writes[|writes| - 1];
      AfterWrite(AfterWrites(before, writes[..|writes| - 1]), last.0, last.1)
  }

  /** Over a series of writes, the file is decided by the last write that got
      past `open`: it holds that write's document if the write succeeded, and
      is damaged if it failed, whatever the file and the earlier writes were.
      When no write got past `open`, the file is as it was before. */
  lemma {:induction false} LastOpenedWriteDecides(before: FileState, writes: seq<(JsonDocument, WriteOutcome)>, i: int)
    requires -1 <= i < |writes|
    requires forall j :: i < j < |writes| ==> writes[j].1 == OpenFailed
    requires i >= 0 ==> writes[i].1 != OpenFailed
    ensures i >= 0 && writes[i].1 == Written ==> AfterWrites(before, writes) == Holds(writes[i].0)
    ensures i >= 0 && writes[i].1 == FailedAfterOpen ==> AfterWrites(before, writes) == Damaged
    ensures i == -1 ==> AfterWrites(before, writes) == before
  {
    if writes != [] && i < |writes| - 1 {
      var init := writes[..|writes| - 1];
      assert forall j :: i < j < |init| ==> init[j] == writes[j];
      LastOpenedWriteDecides(before, init, i);
    }
  }

  class JsonStorage {
    const fileName: string
    var personalInfo: seq<PersonalInfo>
    var wishlistProducts: seq<string>
    var productDetails: seq<ProductDetails>
    var file: FileState

    /** `self.data`. */
    function Data(): JsonDocument
      reads this
    {
      JsonDocument(personalInfo, wishlistProducts, productDetails)
    }

    constructor (fileName: string)
      ensures this.fileName == fileName
      ensures Data() == JsonDocument([], [], [])
      ensures file == Unwritten
    {
      this.fileName := fileName;
      personalInfo, wishlistProducts, productDetails := [], [], [];
      file := Unwritten;
    }

    /** `_save_to_file`: the error of a failed write is caught and logged.
        A successful write leaves the whole current data in the file; a
        failed `open` leaves the file as it was; a failure after `open` has
        truncated the file leaves it damaged, the earlier document lost. */
    method SaveToFile(outcome: WriteOutcome)
      modifies this`file
      ensures outcome == Written ==> file == Holds(Data())
      ensures outcome == OpenFailed ==> file == old(file)
      ensures outcome == FailedAfterOpen ==> file == Damaged
    {
      match outcome {
        case Written => file := Holds(Data());
        case OpenFailed =>
        case FailedAfterOpen => file := Damaged;
      }
    }

    method SavePersonalInfo(info: PersonalInfo, outcome: WriteOutcome)
      modifies this`personalInfo, this`file
      ensures personalInfo == old(personalInfo) + [info]
      ensures wishlistProducts == old(wishlistProducts) && productDetails == old(productDetails)
      ensures file == AfterWrite(old(file), Data(), outcome)
    {
      personalInfo := personalInfo + [info];
      SaveToFile(outcome);
    }

    /** Extends the slot with the URLs in order; no deduplication. */
    method SaveWishlistProducts(urls: seq<string>, outcome: WriteOutcome)
      modifies this`wishlistProducts, this`file
      ensures wishlistProducts == old(wishlistProducts) + urls
      ensures personalInfo == old(personalInfo) && productDetails == old(productDetails)
      ensures file == AfterWrite(old(file), Data(), outcome)
    {
      wishlistProducts := wishlistProducts + urls;
      SaveToFile(outcome);
    }

    method SaveProductDetails(details: ProductDetails, outcome: WriteOutcome)
      modifies this`productDetails, this`file
      ensures productDetails == old(productDetails) + [details]
      ensures personalInfo == old(personalInfo) && wishlistProducts == old(wishlistProducts)
      ensures file == AfterWrite(old(file), Data(), outcome)
    {
      productDetails := productDetails + [details];
      SaveToFile(outcome);
    }

    /** Only logs. */
    method Close()
      ensures Data() == old(Data()) && file == old(file)
    {
    }
  }

  /** Saving the same wishlist twice to a fresh flat-file storage leaves every
      URL in the slot twice, and the file holds the same document. */
  method JsonWishlistSavedTwice(urls: seq<string>) returns (slot: seq<string>, written: FileState)
    ensures slot == urls + urls
    ensures written == Holds(JsonDocument([], urls + urls, []))
  {
    var storage := new JsonStorage("siriust_data.json");
    storage.SaveWishlistProducts(urls, Written);
    storage.SaveWishlistProducts(urls, Written);
    slot, written := storage.wishlistProducts, storage.file;
  }

  /** A save whose write fails after opening leaves the record in memory but
      nothing readable in the file, even when an earlier save had written a
      document there. */
  method JsonSaveThenDamagedWrite(urls: seq<string>, details: ProductDetails)
    returns (data: JsonDocument, written: FileState)
    ensures data == JsonDocument([], urls, [details])
    ensures written == Damaged
  {
    var storage := new JsonStorage("siriust_data.json");
    storage.SaveWishlistProducts(urls, Written);
    storage.SaveProductDetails(details, FailedAfterOpen);
    data, written := storage.Data(), storage.file;
  }

  /** The writes made by saving `details` one record after another into an
      otherwise empty flat-file storage: the k-th write is of the document
      holding the first k+1 records, and ends as `outcomes[k]`. */
  function ProductWrites(details: seq<ProductDetails>, outcomes: seq<WriteOutcome>): (r: seq<(JsonDocument, WriteOutcome)>)
    requires |outcomes| == |details|
    ensures |r| == |details|
  {
    if details == [] then []
    else
      var n := |details| - 1;
      ProductWrites(details[..n], outcomes[..n]) + [(JsonDocument([], [], details), outcomes[n])]
  }

  /** Saving a series of product records to one fresh flat-file storage, as
      the product loop of a run does: memory holds every record in order, the
      file is what that series of writes leaves, and so a final successful
      write leaves the whole document in the file. */
  method JsonSaveProducts(details: seq<ProductDetails>, outcomes: seq<WriteOutcome>)
    returns (data: JsonDocument, written: FileState)
    requires |outcomes| == |details|
    ensures data == JsonDocument([], [], details)
    ensures written == AfterWrites(Unwritten, ProductWrites(details, outcomes))
    ensures details != [] && outcomes[|outcomes| - 1] == Written ==> written == Holds(data)
  {
    var storage := new JsonStorage("siriust_data.json");
    for i := 0 to |details|
      invariant storage.Data() == JsonDocument([], [], details[..i])
      invariant storage.file == AfterWrites(Unwritten, ProductWrites(details[..i], outcomes[..i]))
    {
      storage.SaveProductDetails(details[i], outcomes[i]);
      assert details[..i + 1][..i] == details[..i] && outcomes[..i + 1][..i] == outcomes[..i];
    }
    assert details[..|details|] == details && outcomes[..|outcomes|] == outcomes;
    data, written := storage.Data(), storage.file;
    if details != [] && outcomes[|outcomes| - 1] == Written {
      LastOpenedWriteDecides(Unwritten, ProductWrites(details, outcomes), |details| - 1);
    }
  }

  // =======================================================================
  // Relational storage

  datatype PersonalRow = PersonalRow(email: string, firstName: string, lastName: string, city: string)

  /** SQLite's INTEGER is a signed 64-bit value; sqlite3 raises
      `OverflowError` when asked to bind a Python int outside that range. */
  predicate FitsInt64(v: int) {
    -0x8000_0000_0000_0000 <= v <= 0x7FFF_FFFF_FFFF_FFFF
  }

  /** A `product_details` row with its AUTOINCREMENT id. */
  datatype ProductRow = ProductRow(
    id: nat, name: string, priceRetail: string, priceWholesale: string,
    rating: real, reviewsCount: int, storesCount: int)

  /** A `product_reviews` row; `productId` references `product_details`. */
  datatype ReviewRow = ReviewRow(productId: nat, author: string, rating: real, date: string, message: string)

  /** `INSERT OR IGNORE` into the `UNIQUE` column: add the URL unless a row
      already holds it. */
  function InsertOrIgnore(table: seq<string>, url: string): (r: seq<string>)
    ensures url in table ==> r == table
    ensures url !in table ==> r == table + [url]
  {
    if url in table then table else table + [url]
  }

  /** One `INSERT OR IGNORE` per URL, in order. */
  function InsertOrIgnoreAll(table: seq<string>, urls: seq<string>): (r: seq<string>)
    ensures table <= r
    ensures forall u :: u in urls ==> u in r
    ensures forall u :: u in r ==> u in table || u in urls
    ensures Distinct(table) ==> Distinct(r)
  {
    if urls == [] then table
    else
      var prev := InsertOrIgnoreAll(table, urls[..|urls| - 1]);
      assert forall u :: u in urls ==> u in urls[..|urls| - 1] || u == urls[|urls| - 1];
      InsertOrIgnore(prev, urls[|urls| - 1])
  }

  /** Inserting URLs that are all present already changes nothing. */
  lemma {:induction false} InsertOrIgnoreAllPresent(table: seq<string>, urls: seq<string>)
    requires forall u :: u in urls ==> u in table
    ensures InsertOrIgnoreAll(table, urls) == table
  {
    if urls != [] {
      InsertOrIgnoreAllPresent(table, urls[..|urls| - 1]);
    }
  }

  /** Saving the same URLs a second time leaves the table as the first save
      left it. */
  lemma WishlistSaveIdempotent(table: seq<string>, urls: seq<string>)
    ensures InsertOrIgnoreAll(InsertOrIgnoreAll(table, urls), urls) == InsertOrIgnoreAll(table, urls)
  {
    InsertOrIgnoreAllPresent(InsertOrIgnoreAll(table, urls), urls);
  }

  /** The `product_reviews` rows for a product's reviews, in order, each
      carrying the product row's id. */
  function ReviewRows(productId: nat, reviews: seq<Review>): (r: seq<ReviewRow>)
    ensures |r| == |reviews|
    ensures forall k :: 0 <= k < |r| ==>
      r[k] == ReviewRow(productId, reviews[k].author, reviews[k].rating, reviews[k].date, reviews[k].message)
  {
    seq(|reviews|, k requires 0 <= k < |reviews| =>
      ReviewRow(productId, reviews[k].author, reviews[k].rating, reviews[k].date, reviews[k].message))
  }

  class SQLiteStorage {
    const dbName: string
    /** Whether the connection is still open; `close` releases it. */
    var isOpen: bool
    var personalInfo: seq<PersonalRow>
    var wishlistProducts: seq<string>
    var productDetails: seq<ProductRow>
    var productReviews: seq<ReviewRow>
    /** The id AUTOINCREMENT gives the next `product_details` row. */
    var nextProductId: nat

    function ProductIds(): set<nat>
      reads this
    {
      set k | 0 <= k < |productDetails| :: productDetails[k].id
    }

    /** The table constraints: unique wishlist URLs, increasing product ids
        below the next one, integer columns within SQLite's 64-bit range,
        and every review referencing a product row. */
    ghost predicate Valid()
      reads this
    {
      && 0 < nextProductId
      && Distinct(wishlistProducts)
      && (forall k :: 0 <= k < |productDetails| ==> 0 < productDetails[k].id < nextProductId)
      && (forall j, k :: 0 <= j < k < |productDetails| ==> productDetails[j].id < productDetails[k].id)
      && (forall k :: 0 <= k < |productDetails| ==>
            FitsInt64(productDetails[k].reviewsCount) && FitsInt64(productDetails[k].storesCount))
      && (forall k :: 0 <= k < |productReviews| ==> productReviews[k].productId in ProductIds())
    }

    /** Connects and creates the four tables. */
    constructor (dbName: string)
      ensures Valid() && isOpen && this.dbName == dbName
      ensures personalInfo == [] && wishlistProducts == [] && productDetails == [] && productReviews == []
    {
      this.dbName := dbName;
      isOpen := true;
      personalInfo, wishlistProducts, productDetails, productReviews := [], [], [], [];
      nextProductId := 1;
    }

    /** Inserts one row when the dictionary has all four keys and the
        connection is open; otherwise the error (`KeyError`, or the closed
        connection) is logged and nothing changes. `ok` tells which. */
    method SavePersonalInfo(info: PersonalInfo) returns (ok: bool)
      requires Valid()
      modifies this`personalInfo
      ensures Valid()
      ensures ok <==> isOpen && EmailKey in info && FirstNameKey in info && LastNameKey in info && CityKey in info
      ensures personalInfo == if ok
        then old(personalInfo) + [PersonalRow(info[EmailKey], info[FirstNameKey], info[LastNameKey], info[CityKey])]
        else old(personalInfo)
    {
      if !(EmailKey in info && FirstNameKey in info && LastNameKey in info && CityKey in info) || !isOpen {
        return false;
      }
      personalInfo := personalInfo + [PersonalRow(info[EmailKey], info[FirstNameKey], info[LastNameKey], info[CityKey])];
      ok := true;
    }

    /** One `INSERT OR IGNORE` per URL, then a commit. On a closed connection
        the first insert, or with no URLs the commit, raises and is logged. */
    method SaveWishlistProducts(urls: seq<string>) returns (ok: bool)
      requires Valid()
      modifies this`wishlistProducts
      ensures Valid()
      ensures ok == isOpen
      ensures wishlistProducts == if ok then InsertOrIgnoreAll(old(wishlistProducts), urls) else old(wishlistProducts)
    {
      if !isOpen {
        return false;
      }
      for i := 0 to |urls|
        invariant wishlistProducts == InsertOrIgnoreAll(old(wishlistProducts), urls[..i])
        invariant Distinct(wishlistProducts)
      {
        assert urls[..i + 1][..i] == urls[..i];
        var url := urls[i];
        if url !in wishlistProducts {
          wishlistProducts := wishlistProducts + [url];
        }
      }
      assert urls[..|urls|] == urls;
      ok := true;
    }

    /** Inserts the product row, then one review row per review carrying the
        new row's id. `int(reviews_count)` is evaluated while the arguments
        are built, and binding them raises `OverflowError` for a count
        outside SQLite's 64-bit range; in either case nothing is inserted
        and the error is logged; so too on a closed connection. */
    method SaveProductDetails(details: ProductDetails) returns (ok: bool)
      requires Valid()
      modifies this`productDetails, this`productReviews, this`nextProductId
      ensures Valid()
      ensures ok <==>
        && isOpen && ParseInt(details.reviewsCount).Some?
        && FitsInt64(ParseInt(details.reviewsCount).value) && FitsInt64(details.storesCount)
      ensures ok ==>
        && productDetails == old(productDetails) + [ProductRow(
             old(nextProductId), details.name, details.priceRetail, details.priceWholesale,
             details.rating, ParseInt(details.reviewsCount).value, details.storesCount)]
        && productReviews == old(productReviews) + ReviewRows(old(nextProductId), details.reviews)
        && nextProductId == old(nextProductId) + 1
      ensures !ok ==>
        productDetails == old(productDetails) && productReviews == old(productReviews)
        && nextProductId == old(nextProductId)
    {
      var reviewsCount := ParseInt(details.reviewsCount);
      if reviewsCount.None? || !FitsInt64(reviewsCount.value) || !FitsInt64(details.storesCount) || !isOpen {
        return false;
      }
      ghost var open := isOpen;
      var productId := InsertProductRow(details, reviewsCount.value);
      InsertReviewRows(productId, details.reviews);
      assert isOpen == open;
      ok := true;
    }

    /** The `product_details` insert; `productId` is the cursor's `lastrowid`. */
    method InsertProductRow(details: ProductDetails, reviewsCount: int) returns (productId: nat)
      requires Valid()
      requires FitsInt64(reviewsCount) && FitsInt64(details.storesCount)
      modifies this`productDetails, this`nextProductId
      ensures Valid()
      ensures productId == old(nextProductId) && productId in ProductIds()
      ensures productDetails == old(productDetails) + [ProductRow(
        productId, details.name, details.priceRetail, details.priceWholesale,
        details.rating, reviewsCount, details.storesCount)]
      ensures nextProductId == old(nextProductId) + 1
    {
      productId := nextProductId;
      ghost var before := productDetails;
      productDetails := productDetails + [ProductRow(
        productId, details.name, details.priceRetail, details.priceWholesale,
        details.rating, reviewsCount, details.storesCount)];
      nextProductId := nextProductId + 1;
      assert ProductIds() == (set k | 0 <= k < |before| :: before[k].id) + {productId} by {
        assert forall k :: 0 <= k < |before| ==> productDetails[k] == before[k];
        assert productDetails[|before|].id == productId;
      }
    }

    /** The loop over `product_details["reviews"]`. */
    method InsertReviewRows(productId: nat, reviews: seq<Review>)
      requires Valid() && productId in ProductIds()
      modifies this`productReviews
      ensures Valid()
      ensures productReviews == old(productReviews) + ReviewRows(productId, reviews)
    {
      for i := 0 to |reviews|
        invariant productReviews == old(productReviews) + ReviewRows(productId, reviews[..i])
        invariant Valid()
      {
        var review := reviews[i];
        productReviews := productReviews + [ReviewRow(productId, review.author, review.rating, review.date, review.message)];
      }
      assert reviews[..|reviews|] == reviews;
    }

    method Close()
      modifies this`isOpen
      ensures !isOpen
    {
      isOpen := false;
    }
  }

  /** Saving the same wishlist twice to a fresh database leaves every URL
      present exactly once. */
  method SQLiteWishlistSavedTwice(urls: seq<string>) returns (rows: seq<string>)
    ensures Distinct(rows)
    ensures forall u :: u in rows <==> u in urls
    ensures rows == InsertOrIgnoreAll([], urls)
  {
    var storage := new SQLiteStorage("siriust_data.db");
    var ok1 := storage.SaveWishlistProducts(urls);
    var ok2 := storage.SaveWishlistProducts(urls);
    WishlistSaveIdempotent([], urls);
    rows := storage.wishlistProducts;
  }

  /** A review link reading a count, one of the separators U+001C..U+001F,
      then " отзыва" yields the count text with the separator still on it,
      which `int()` refuses. */
  lemma SeparatorCountRejected(count: string, c: char)
    requires count != [] && forall i :: 0 <= i < |count| ==> IsDigit(count[i])
    requires IsSeparator(c)
    ensures ReviewsCount([count + [c] + " отзыва"]) == count + [c]
    ensures ParseInt(count + [c]).None?
  {
    var link := count + [c] + " отзыва";
    assert IsDigit(link[0]) && link[|link| - 1] == 'а';
    StripTrimmed(link);
    assert link[..|count| + 1] == count + [c];
    BeforeFirstSpaceAt(link, |count| + 1);
    ParseIntRejectsSeparator(count, c);
  }

  /** So a product whose review count is that text, as `SeparatorCountRejected`
      cuts it from such a link, is not stored: the save reports failure and
      leaves the product table empty. */
  method SQLiteSeparatorCountNotStored(details: ProductDetails, count: string, c: char)
    returns (ok: bool, rows: seq<ProductRow>)
    requires count != [] && forall i :: 0 <= i < |count| ==> IsDigit(count[i])
    requires IsSeparator(c)
    requires details.reviewsCount == count + [c]
    ensures !ok && rows == []
  {
    ParseIntRejectsSeparator(count, c);
    var storage := new SQLiteStorage("siriust_data.db");
    ok := storage.SaveProductDetails(details);
    rows := storage.productDetails;
  }

  /** A count of twenty or more digits without a leading zero is beyond
      SQLite's 64-bit range. */
  lemma HugeCountDoesNotFit(count: string)
    requires 20 <= |count| && count[0] != '0'
    requires forall i :: 0 <= i < |count| ==> IsDigit(count[i])
    ensures !FitsInt64(DigitsValue(count))
  {
    DigitsValueAtLeast(count);
    Pow10Monotone(19, |count| - 1);
    Pow10Of19();
  }

  /** So a product whose review count is such a number is not stored,
      although `int()` accepts the count: binding it fails, the save reports
      failure and the product table stays empty. */
  method SQLiteHugeCountNotStored(details: ProductDetails) returns (ok: bool, rows: seq<ProductRow>)
    requires 20 <= |details.reviewsCount| <= MaxStrDigits && details.reviewsCount[0] != '0'
    requires forall i :: 0 <= i < |details.reviewsCount| ==> IsDigit(details.reviewsCount[i])
    ensures ParseInt(details.reviewsCount).Some?
    ensures !ok && rows == []
  {
    ParseIntAllDigits(details.reviewsCount);
    HugeCountDoesNotFit(details.reviewsCount);
    var storage := new SQLiteStorage("siriust_data.db");
    ok := storage.SaveProductDetails(details);
    rows := storage.productDetails;
  }
}
