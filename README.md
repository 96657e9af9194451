# siriust-parser, modelled in Dafny

This project models the core of the siriust-parser scraper. The scraper logs
into the shop, reads the profile page, the wishlist and each wishlisted
product page, and pulls fields out of the HTML. It then hands the records to
one of two storages: a JSON file or an SQLite database. The model covers
three parts:

- **Field extraction** (`DataParser`, `data_parser.dfy`). Each page is
  represented by what its XPath queries return. These are strings for
  `text()`, `@href` and `@value`, a class-token list per star icon, the text
  fragments of each feature row, and one record per review block. The
  `_parse_*` rules are functions over those sequences. The three loops
  (`_parse_rating`, `_parse_stores_count`, `_parse_reviews`) are methods
  proved against specification functions (`StarsRating`, `CountInStock`,
  `ReviewsOf`). The `get_*` operations take the HTTP status as an input and
  return the empty result for any status other than 200.
- **Storages** (`Storages`, `storages.dfy`). `JsonStorage` is a class with the
  three list slots of `self.data` and the state of its file. How a file write
  ends is a parameter: written, `open` failed (file untouched), or failed
  after `open(..., "w")` had already truncated the file (file damaged). `SQLiteStorage` is a class
  whose tables are sequences of rows, plus the AUTOINCREMENT counter of
  `product_details` and whether the connection is open. `INSERT OR IGNORE`
  into the `UNIQUE` URL column becomes "append only if absent". The
  `Valid()` invariant holds the table constraints: unique URLs, increasing
  product ids, and every review row pointing at a product row.
- **Orchestrator** (`SiriustParser`, `siriust_parser.dfy`). `SiriustParser.run`
  becomes `Run`. It takes the login result, the personal-info dictionary, the
  wishlist and a function from link to product details. It returns the trace
  of calls it makes on the parser and the storage.

`text.dfy` (module `Text`) holds the Python string primitives these rules
use: `str.strip()` with Python's whitespace set, `str.lower()`, substring
search, `split(" ", 1)[0]`, `" ".join` and `int()`. `wrappers.dfy` holds
`Option`. `None` stands for the empty dictionary that `get_product_details`
returns.

Three points of the code's behaviour the model follows:
- A feature row is judged by its first value fragment only (`value[0]`), not
  by all of its value text.
- `reviews_count` is the stripped link text up to its first space, not its
  leading digits.
- Personal-info fields have no fallback. An absent input makes the source
  raise `IndexError`, so the model requires the inputs when the status is 200.

## Model

| member | source | states |
|---|---|---|
| `Text.Strip` | src/data_parser.py:69-70 | `strip()` returns a string that neither begins nor ends with whitespace. It is empty iff the input is all whitespace. |
| `Text.StripPads` | src/data_parser.py:69-70 | The input is `Strip` of it padded on each side by whitespace only, so nothing but surrounding whitespace is removed. |
| `Text.StripOfPadded` | src/data_parser.py:69-70 | Stripping a trimmed string padded by whitespace on both sides gives that string back. |
| `Text.StripIsUnique` | src/data_parser.py:69-70 | Any trimmed string that the input pads with whitespace is exactly `Strip` of the input, so `IsStripOf` characterises `strip()`. |
| `Text.BeforeFirstSpace` | src/data_parser.py:112 | `split(" ", 1)[0]` is a prefix of the text with no space in it. It is either the whole text or is followed by a space. |
| `Text.JoinTrimmed` | src/data_parser.py:148 | `" ".join` of non-empty trimmed parts is trimmed. It is empty iff there are no parts. |
| `Text.LowerChar` | src/data_parser.py:121 | A lower-cased character is never a capital, and a character that is not a capital is unchanged. |
| `Text.Lower` | src/data_parser.py:121 | `lower()` keeps the length, leaves no capital, and leaves every non-capital character in place. |
| `Text.Contains` | src/data_parser.py:121 | `sub in s` can hold only when `sub` is no longer than `s`. |
| `Text.ParseIntRejectsBlank` | src/storages.py:114 | `int()` of empty or all-whitespace text fails. |
| `Text.ParseIntAllDigits` | src/storages.py:114 | `int()` of a non-empty run of decimal digits gives their value when there are at most 4300 of them, and fails when there are more. |
| `Text.ParseIntRejectsForeign` | src/storages.py:114 | `int()` fails on text holding any character that is not a digit, `_`, a sign or whitespace other than the separators U+001C..U+001F. |
| `Text.ParseIntRejectsSeparator` | src/storages.py:114 | `int()` does not skip the separator U+001C that `strip()` removes: "5" followed by U+001C strips to "5" but fails to parse. |
| `Text.ParseIntRejectsWord` | src/storages.py:114 | `int("Написать")` fails: the count cut from a "Написать отзыв" link does not parse. |
| `DataParser.InputValue` | src/data_parser.py:69-79 | A profile field is the stripped first `@value`. A match is required, because the source raises `IndexError` without one. |
| `DataParser.GetPersonalInfo` | src/data_parser.py:18-34 | Status 200 gives exactly the keys email, first_name, last_name and city, each the stripped first value of its input. Any other status gives the empty dictionary. |
| `DataParser.GetWishlistProducts` | src/data_parser.py:36-47 | Status 200 gives the product-title links in page order. Any other status gives the empty list. |
| `DataParser.ProductName` | src/data_parser.py:81-83 | The stripped first title, or "Нет названия" when there is none. |
| `DataParser.PriceRetail` | src/data_parser.py:85-89 | The stripped first retail price, or "Нет цены" when there is none. |
| `DataParser.PriceWholesale` | src/data_parser.py:91-93 | The stripped first wholesale price, or "Нет цены" when there is none. |
| `DataParser.ReviewsCount` | src/data_parser.py:108-112 | "0" without a review link. Otherwise a prefix of the stripped link text with no space, either all of it or ending where a space starts. |
| `DataParser.StarScore` | src/data_parser.py:100-105 | An icon scores 1 iff it has the full-star token. It scores 0.5 iff it has the half-star token and not the full one, and 0 iff it has neither. |
| `DataParser.StarsRating` | src/data_parser.py:95-106 | The sum of the icon scores lies between 0 and the number of icons. |
| `DataParser.ParseRating` | src/data_parser.py:95-106 | The accumulating loop returns `StarsRating` of the icons, so it lies between 0 and their number. |
| `DataParser.RatingByCounts` | src/data_parser.py:95-106 | The rating is (full stars) + 0.5 × (half stars), and these two counts together are at most the number of icons. |
| `DataParser.RatingAppend` | src/data_parser.py:99-105 | The rating of two icon lists put together is the sum of their ratings. |
| `DataParser.RatingRemoveAt` | src/data_parser.py:99-105 | Taking one icon out of the list takes exactly its score off the rating. |
| `DataParser.RatingOrderIndependent` | src/data_parser.py:95-106 | Any rearrangement of the same icons (equal multisets) has the same rating. |
| `DataParser.InStock` | src/data_parser.py:119-122 | A row without value text never counts. A row whose first fragment is shorter than "отсутствует" always counts. |
| `DataParser.CountInStock` | src/data_parser.py:114-123 | The number of rows that have value text whose first fragment, lower-cased, lacks "отсутствует". It is at most the number of rows. |
| `DataParser.ParseStoresCount` | src/data_parser.py:114-123 | The counting loop returns `CountInStock` of the rows. |
| `DataParser.CountInStockExtremes` | src/data_parser.py:114-123 | The count equals the number of rows iff every row is in stock. It is 0 iff no row is. |
| `DataParser.OutOfStockExample` | src/data_parser.py:119-122 | A row reading "Товар отсутствует в продаже" does not count, and neither does a row without value text. |
| `DataParser.InStockExample` | src/data_parser.py:119-122 | A row reading "В наличии" counts. |
| `DataParser.NonBlankStrippedAreTrimmed` | src/data_parser.py:148 | The kept fragments are non-empty and trimmed. |
| `DataParser.NonBlankStrippedEmpty` | src/data_parser.py:148 | No fragment is kept iff every fragment is blank. |
| `DataParser.ReviewMessage` | src/data_parser.py:145-148 | The joined message never begins or ends with whitespace. |
| `DataParser.ReviewMessageShape` | src/data_parser.py:145-148 | The message is empty iff every fragment is blank. |
| `DataParser.ReviewOf` | src/data_parser.py:130-157 | The author falls back to "Неизвестный автор" and the date to "Нет даты", otherwise each is the stripped first match. The rating follows the product-rating rule and is bounded by the star count. The message follows the join rule. |
| `DataParser.ParseReview` | src/data_parser.py:130-157 | The loop body builds `ReviewOf` its block. |
| `DataParser.ParseReviews` | src/data_parser.py:125-158 | The loop returns `ReviewsOf` the blocks: `ReviewOf` applied to each block in document order. |
| `DataParser.MapSeqElementwise` | src/data_parser.py:129-157 | Mapping a list gives one result per element, the k-th made from the k-th element; with `ReviewsOf` this makes the review list blockwise. |
| `DataParser.GetProductDetails` | src/data_parser.py:49-67 | The result is empty iff the status is not 200. Otherwise it has all seven fields, each given by its rule, and the reviews are `ReviewsOf` the blocks. |
| `DataParser.TrimmedEmailExample` | src/data_parser.py:69-70 | An email input whose value is " a@b.com " gives the email "a@b.com". |
| `Storages.LastOpenedWriteDecides` | src/storages.py:186-193 | Over any series of writes, the file is decided by the last write that got past `open`: it holds that write's document if the write succeeded and is damaged if it failed, whatever came before. If no write got past `open`, the file is as it was. |
| `Storages.JsonStorage.constructor` | src/storages.py:150-157 | A fresh storage has the three slots personal_info, wishlist_products and product_details, all empty, and has written nothing. |
| `Storages.JsonStorage.SaveToFile` | src/storages.py:186-193 | A successful write leaves the file holding the whole current document. Failures are swallowed: a failed `open` leaves the file as it was, and a failure after `open` has truncated it leaves the file damaged. |
| `Storages.JsonStorage.SavePersonalInfo` | src/storages.py:159-166 | Appends exactly the given dictionary, even an empty one, to its slot. The other two slots are unchanged, and the append stands however the file write ends. The file is then as `SaveToFile` leaves it for that outcome. |
| `Storages.JsonStorage.SaveWishlistProducts` | src/storages.py:168-175 | Extends its slot with the URLs in order, without deduplication. The other slots are unchanged, and the file is as `SaveToFile` leaves it for the write's outcome. |
| `Storages.JsonStorage.SaveProductDetails` | src/storages.py:177-184 | Appends exactly one record to its slot. The other slots are unchanged, and the file is as `SaveToFile` leaves it for the write's outcome. |
| `Storages.JsonStorage.Close` | src/storages.py:195-197 | The stored data and the file are unchanged. |
| `Storages.JsonWishlistSavedTwice` | src/storages.py:168-172 | Saving the same wishlist twice to a fresh JSON storage leaves each URL in the slot twice, and the file holds that document. |
| `Storages.JsonSaveThenDamagedWrite` | src/storages.py:159-193 | After a written wishlist save, a product save whose write fails after opening keeps both records in memory but leaves the file damaged: the earlier document is lost from disk. |
| `Storages.JsonSaveProducts` | src/storages.py:177-193 | Saving a series of product records to one storage keeps them all in memory in order, leaves the file as `AfterWrites` of that series of writes, and so, when the last write succeeds, leaves the whole document in the file. |
| `Storages.InsertOrIgnore` | src/storages.py:89-95 | A URL already in the table leaves it unchanged. A new URL is appended. |
| `Storages.InsertOrIgnoreAll` | src/storages.py:85-96 | Existing rows are kept as a prefix and every given URL ends up present. No other URL appears, and unique URLs stay unique. |
| `Storages.InsertOrIgnoreAllPresent` | src/storages.py:88-95 | Inserting URLs that are all present changes nothing. |
| `Storages.WishlistSaveIdempotent` | src/storages.py:85-96 | Repeating a wishlist save leaves the table as the first save left it. |
| `Storages.ReviewRows` | src/storages.py:120-133 | One review row per review, in order, each carrying the given product id and the review's four fields. |
| `Storages.SQLiteStorage.constructor` | src/storages.py:12-63 | The four tables are created empty, the connection is open and the table constraints hold. |
| `Storages.SQLiteStorage.SavePersonalInfo` | src/storages.py:65-83 | One row is inserted iff the connection is open and all four keys are present. Otherwise (`KeyError`, or a closed connection) nothing changes and the error is only logged. |
| `Storages.SQLiteStorage.SaveWishlistProducts` | src/storages.py:85-99 | On an open connection the table becomes `InsertOrIgnoreAll` of the URLs, so each is present exactly once and old rows are kept. On a closed one nothing changes. |
| `Storages.SQLiteStorage.SaveProductDetails` | src/storages.py:101-138 | Nothing is inserted if `int(reviews_count)` fails, if the count or `stores_count` lies outside SQLite's signed 64-bit range (sqlite3's `OverflowError` on binding), or if the connection is closed. Otherwise one product row with a fresh id is added, then one review row per review in order, each carrying that id. |
| `Storages.SQLiteStorage.InsertProductRow` | src/storages.py:104-118 | Given integer columns within the signed 64-bit range, appends the product row under the next id, which becomes `lastrowid`, and advances the counter. The table keeps every stored count within that range. |
| `Storages.SQLiteStorage.InsertReviewRows` | src/storages.py:120-133 | Appends the review rows for the reviews in order, keeping every review pointing at a product row. |
| `Storages.SQLiteStorage.Close` | src/storages.py:140-146 | The connection is closed and the tables are unchanged. |
| `Storages.SQLiteWishlistSavedTwice` | src/storages.py:85-96 | Saving the same wishlist twice to a fresh database stores each URL exactly once. |
| `Storages.SeparatorCountRejected` | src/data_parser.py:108-113 | A review link reading "5", U+001C, " отзыва" gives the count text "5" followed by U+001C, and `int()` refuses that text. |
| `Storages.SQLiteSeparatorCountNotStored` | src/storages.py:101-138 | A product whose review count is digits followed by such a separator, as cut from such a link, is not stored: the save reports failure and the product table stays empty. |
| `Storages.HugeCountDoesNotFit` | src/storages.py:114 | A count of twenty or more digits without a leading zero lies outside SQLite's signed 64-bit range. |
| `Storages.SQLiteHugeCountNotStored` | src/storages.py:101-138 | A product whose review count is such a number, of at most 4300 digits, parses with `int()` yet is not stored: binding fails, the save reports failure and the product table stays empty. |
| `SiriustParser.ProductLoopFetchesEachLink` | src/siriust_parser.py:28-29 | The product loop fetches every link once, in list order. |
| `SiriustParser.ProductLoopStoresNonEmpty` | src/siriust_parser.py:28-43 | The product loop saves exactly the details that are not empty, in link order. |
| `SiriustParser.ProductLoopStoreFollowsFetch` | src/siriust_parser.py:28-43 | The loop makes only product fetches and saves, and each save comes right after the fetch whose details it saves. |
| `SiriustParser.RunProductLoop` | src/siriust_parser.py:28-43 | The loop over the links makes exactly the calls `ProductLoop` lists: per link a fetch, then a save when the details are not empty. |
| `SiriustParser.Run` | src/siriust_parser.py:14-43 | A failed login makes no fetch and no save. After a login, personal info is saved as returned, even when empty. An empty wishlist stops the run. A non-empty one is saved once, in full, before the product loop. Products are fetched per link in order and saved exactly for non-empty details. |
| `SiriustParser.RunWithFailedWishlist` | src/siriust_parser.py:22-25 | A wishlist page that does not return 200 gives no links, so the run ends after the personal-info save without fetching any product. |

## Left out

- src/auth.py: the login POST and cookie lookup are network code. Their outcome ("status 200 and the `cp_email` cookie is set") is the `loginOk` input of `Run`.
- src/main.py: choosing a storage from an `input()` prompt, and logging setup, are wiring only.
- src/interfaces.py: the abstract base classes carry no behaviour. The two storages are separate classes with the same operations.
- HTTP fetching, lxml parsing and XPath evaluation are foreign libraries. A page is the list of results each query returns, and which elements a selector matches is not modelled.
- JSON serialisation (indentation, `ensure_ascii=False`) is not modelled. The file is modelled as the document value last written.
- The SQLite engine: transactions, `commit`, and engine failures inside an open connection (a locked or full database) are not modelled. Neither are the ids of `personal_info`, `wishlist_products` and `product_reviews` rows. `lastrowid` is a counter of fresh, increasing `product_details` ids.
- Storages.SQLiteStorage.constructor: starts from empty tables. `CREATE TABLE IF NOT EXISTS` on an existing database file would keep its rows. The save methods are proved from any state that meets the table constraints, which covers that case.
- Logging calls and the `input()` prompts of `run`.
- SiriustParser.Run: cannot represent a run that aborts. `run` catches nothing, so an `IndexError` from `get_personal_info` on a 200 profile page that lacks one of the four inputs, or a network error in any fetch, ends the whole run after `login`. The model takes the personal-info dictionary and the fetch results as inputs and always completes.
- Text.Lower: lower-cases the ASCII capitals A..Z and the Cyrillic capitals U+0400..U+042F only. Python's `str.lower()` covers all of Unicode.
- Text.ParseInt: accepts ASCII digits only. Python's `int()` also accepts other Unicode decimal digits. The 4300-digit limit is the default `sys.int_info.default_max_str_digits` of current CPython releases; older releases have no limit, and a changed setting is not modelled.
- Floating point: ratings are exact `real` sums of 1 and 0.5. The source's rating is an integer counting the full stars until a half star makes it a float, and the model does not distinguish `4` from `4.0`.
- Storages.SQLiteStorage.SaveProductDetails: takes the seven-field record, so the `KeyError` path for a dictionary missing a key is not modelled. The only caller passes records that `get_product_details` built with all seven keys.
- The `except` around the in-memory `append`/`extend` in `JsonStorage` can never fire, so it is not modelled.
