# Product controller of the shop back end, modelled in Dafny

The back end is an Express service over a MySQL database. This project models the core of its
product controller, `controllers/productController.js`:

- **`create`** takes a multipart form: ten text fields and the paths of the uploaded images.
  - It takes a pooled connection and opens a transaction.
  - It runs `JSON.parse` on a truthy `selectedAttributes`.
  - It inserts the product row.
  - It splits `selectedAttributes` on commas and trims each piece.
  - It looks the pieces up in the `attributes` reference table and builds a value-to-id map. A
    later row with the same value wins.
  - It links the product to every truthy id found, in the order of the request.
  - It inserts one image row per file and commits, answering 201 with the new id.
  - If anything throws once the connection is held, it rolls back and answers 500. The
    connection is released on every path on which one was obtained.
- **`getAll`**: the step that turns each row's `GROUP_CONCAT` of image URLs into an array.
- **`getById`**: `parseInt` of the id parameter, with 400 for NaN, 404 for no row, the same
  image splitting for the first row, and 500 when the query throws.

The modules follow the program's layers:

- `Wrappers`: the Option type, used for `undefined`, NaN and NULL.
- `JsText`: the JavaScript string semantics the controller depends on, per ECMA-262:
  - `trim`, with the WhiteSpace and LineTerminator sets;
  - `split` on one character;
  - `join`;
  - `parseInt` without a radix: leading white space, one sign, a `0x` prefix, and the longest
    digit prefix.
- `Store`: the tables, as rows in memory.
  - A `Database` class holds the three written tables, the AUTO_INCREMENT counter and the
    read-only `attributes` table.
  - A `Connection` class holds the transaction state, the snapshot BEGIN took and the released
    flag.
  - Each statement is a method taking whether it fails.
- `AttributeResolution`: the value-to-id map, the resolution of the requested values, and the
  link rows (lines 51-69).
- `ProductController`:
  - `create` as imperative methods (`LinkAttributes`, `WriteRows`, `WriteDependents`,
    `StoreImagesAndCommit`, `Transact`, `Create`), each proved against the functional
    description beside it: `PlanFor`, `Applied`, `FirstFailure`, `ExpectedResponse` and
    `FinalState`;
  - the readers as functions;
  - lemmas about these.

There are two parameters:

- `isJson: string -> bool` is whether `JSON.parse` accepts a text.
- `fails: Statement -> bool` is whether each statement throws.

So every interleaving of failures is covered by one proof.

Where the code does not do what it appears to intend, the model follows the code:

- `JSON.parse` runs after `beginTransaction` (line 24, after line 9). Invalid JSON is therefore
  a rollback and a 500, not a rejection before any database work.
  - The comma list `Green,Large` is not JSON, so it fails the whole request (`NonJsonAttributesFail`).
  - A JSON array text such as `["Green","Large"]` passes line 24. But the comma split of line 44
    works on the raw text, so the pieces keep their brackets and quotes, and against ordinary
    attribute values nothing is linked (`JsonArrayTextResolvesNothing`).
- An empty `selectedAttributes` is falsy: it skips `JSON.parse` and is stored as NULL. But it is
  still a string, so line 44 turns it into `[""]` and the lookup runs for the empty value
  (`LookupIffSent`).
- The AUTO_INCREMENT counter is not given back by ROLLBACK, so an id is used up whenever the
  product INSERT succeeded, even when the request then fails (`Create`, `ProductInserted`).
- `routes/productRoutes.js` registers `productController.getTopTrending` (line 9), which the
  controller does not define. Express refuses a route whose handler is not a function, so as
  written the routes fail to load. Only the handlers themselves are modelled.

## Model

| member | source | states |
|---|---|---|
| JsText.TrimStart | controllers/productController.js:44 | the result is a suffix of the input, everything dropped is white space, and the result does not start with white space |
| JsText.TrimEnd | controllers/productController.js:44 | the result is a prefix of the input, everything dropped is white space, and the result does not end with white space |
| JsText.Trim | controllers/productController.js:44 | `trim()` gives the slice between the leading and the trailing white space, and the slice neither starts nor ends with white space |
| JsText.TrimIdempotent | controllers/productController.js:44 | trimming twice is trimming once |
| JsText.TrimKeepsUnpadded | controllers/productController.js:44 | a string that neither starts nor ends with white space is its own trim |
| JsText.Split | controllers/productController.js:44 | `split` on one character gives at least one piece, and no piece holds the separator |
| JsText.SplitThenJoin | controllers/productController.js:152 | joining the pieces of a split with the separator gives back the string |
| JsText.SplitWithoutSeparator | controllers/productController.js:44 | a string without the separator, the empty string included, splits into one piece: itself |
| JsText.SplitAtSeparator | controllers/productController.js:44 | a separator-free piece, then the separator, then a rest splits into that piece followed by the rest's pieces |
| JsText.JoinThenSplit | controllers/productController.js:152 | splitting a join of separator-free pieces gives back the pieces |
| JsText.DigitValue | controllers/productController.js:181 | a character is a digit of radix 36 exactly when it is 0-9, a-z or A-Z; its value is below 36, and below 10 exactly for 0-9 |
| JsText.DigitValueInOrder | controllers/productController.js:181 | the k-th character of "0123456789abcdefghijklmnopqrstuvwxyz", in either case, is the digit of value k |
| JsText.DigitPrefix | controllers/productController.js:181 | the result is the longest prefix made of digits of the radix |
| JsText.NaturalTextValue | controllers/productController.js:181 | the value of a natural number's decimal numeral is that number |
| JsText.ParseIntOfNatural | controllers/productController.js:181 | `parseInt` of a decimal numeral followed by any text that cannot continue it is the numeral's number: no digit may follow, and no 'x' or 'X' after a lone "0" |
| JsText.ParseIntOfNegative | controllers/productController.js:181 | a '-' before what `parseInt` reads as a magnitude negates the result |
| JsText.ParseIntOfUnsigned | controllers/productController.js:181 | a text that starts with a decimal digit parses to its magnitude |
| JsText.ParseIntOfHex | controllers/productController.js:181 | `parseInt("0x1A")` is 26: the prefix selects radix 16 and letters count from 10 |
| JsText.ParseIntOfUnpadded | controllers/productController.js:181 | without leading white space, `parseInt` starts at the sign |
| JsText.ParseIntOfNonNumeral | controllers/productController.js:181-182 | a text whose first character is not white space, a sign or a digit is NaN |
| JsText.ParseIntWithoutDigits | controllers/productController.js:181-182 | a text without any decimal digit is NaN |
| JsText.LeadingNumberDefinedIff | controllers/productController.js:181 | a number is read in a radix exactly when the text starts with a digit of it |
| JsText.MagnitudeDefinedIff | controllers/productController.js:181-182 | the unsigned part gives a number exactly when it is `Numeric`: it starts with a decimal digit, and after "0x" or "0X" a hexadecimal digit follows |
| JsText.ParseInt | controllers/productController.js:181-182 | `parseInt` is not NaN exactly when the text after the leading white space and one sign is `Numeric` (a decimal digit first, and a hexadecimal digit after a "0x" prefix); together with `GetById` this says exactly which ids get 400 |
| JsText.ParseIntSkipsWhiteSpace | controllers/productController.js:181 | leading white space does not change the result of `parseInt` |
| Store.SelectByValues | controllers/productController.js:51-54 | the SELECT returns only table rows whose value was requested, and every such row |
| Store.Database.GetConnection | controllers/productController.js:8 | a connection exactly when the pool does not fail; it is fresh, unreleased and outside any transaction |
| Store.Connection.BeginTransaction | controllers/productController.js:9 | on success the transaction is active and has a snapshot of the tables; on failure nothing changes |
| Store.Connection.InsertProduct | controllers/productController.js:33-41 | on success one row with the next AUTO_INCREMENT id is appended and that id is reported; on failure nothing changes |
| Store.Connection.SelectAttributes | controllers/productController.js:51-54 | on success the rows returned are the lookup's |
| Store.Connection.InsertProductAttributes | controllers/productController.js:70-73 | on success all the rows are appended at once; on failure nothing changes |
| Store.Connection.InsertProductImages | controllers/productController.js:81-84 | on success all the rows are appended at once; on failure nothing changes |
| Store.Connection.Commit | controllers/productController.js:87 | on success an active transaction becomes committed |
| Store.Connection.Rollback | controllers/productController.js:96 | an active transaction puts the tables back as BEGIN found them, without giving back the AUTO_INCREMENT counter; otherwise nothing changes |
| Store.Connection.Release | controllers/productController.js:104 | the connection is released and its transaction state is kept |
| AttributeResolution.AttributeMap | controllers/productController.js:57-60 | the map's keys are exactly the values occurring in the rows |
| AttributeResolution.LastRowWins | controllers/productController.js:58-60 | for a value carried by several rows, the map holds the id of the last of them |
| AttributeResolution.EntryFromRow | controllers/productController.js:58-60 | every entry of the map is the value and id of some row |
| AttributeResolution.BuildAttributeMap | controllers/productController.js:57-60 | the loop over the rows builds exactly the map `AttributeMap` describes |
| AttributeResolution.Resolve | controllers/productController.js:63-65 | at most one id per requested value, and every id is truthy and comes from the map |
| AttributeResolution.ResolveAppend | controllers/productController.js:63-65 | resolution works value by value: resolving a concatenation concatenates the results |
| AttributeResolution.ResolveMembership | controllers/productController.js:63-65 | an id is produced exactly when some requested value maps to it with a truthy id |
| AttributeResolution.ResolveAllHit | controllers/productController.js:63-65 | when every value hits, the ids are those of the values position by position, with order and duplicates kept |
| AttributeResolution.ResolveNoHit | controllers/productController.js:63-65 | when no value hits, nothing is produced |
| AttributeResolution.ResolveAgrees | controllers/productController.js:63-65 | resolution depends only on the map's entries for the requested values |
| AttributeResolution.SelectionKeepsEntry | controllers/productController.js:51-60 | for a requested value, the map of the SELECT's rows has exactly the entry the map of the whole table has |
| AttributeResolution.SelectionIrrelevant | controllers/productController.js:51-65 | the ids resolved from the SELECT's rows are those the whole `attributes` table gives |
| AttributeResolution.ResolvedIdsComeFromTable | controllers/productController.js:51-65 | every resolved id is the truthy id of a table row whose value was requested |
| ProductController.InsertValues | controllers/productController.js:37-38 | a falsy price or stock quantity is bound as 0 and any other falsy field as NULL (in both directions); truthy fields are bound as sent |
| ProductController.NormalisedAttributes | controllers/productController.js:43-45 | a missing field stays missing; a string gives as many pieces as its comma split, at least one, each the trim of its piece |
| ProductController.NormalisedPiecesClean | controllers/productController.js:43-45 | no normalised piece holds a comma or starts or ends with white space |
| ProductController.LookupIffSent | controllers/productController.js:43-49 | the lookup runs exactly when `selectedAttributes` was sent, and the empty text normalises to one empty piece |
| ProductController.ResolvedIds | controllers/productController.js:49-65 | no ids when the lookup does not run; otherwise exactly the resolution of the normalised values against the whole `attributes` table, so the WHERE clause of line 52 changes nothing |
| AttributeResolution.LinkRows | controllers/productController.js:69 | one link row per resolved id, in order, each for the new product; `LinksFromTable` adds that each names a truthy id of a requested row |
| ProductController.ImageRows | controllers/productController.js:28-80 | one image row per uploaded file, in file order, each for the new product with that file's path |
| ProductController.LinksFromTable | controllers/productController.js:49-74 | with no lookup there is no link; otherwise every link row has the new product's id and the truthy id of a table row whose value was requested |
| ProductController.LinkFromTable | controllers/productController.js:63-69 | the k-th link row has the new product's id and the truthy id of a table row whose value was requested |
| ProductController.PlanLinksFollowRequest | controllers/productController.js:43-69 | when every requested value hits, the links are the product id paired with each value's id, position by position |
| ProductController.ResolvedIdsOfSent | controllers/productController.js:43-65 | for a sent field, the resolved ids are the resolution of its pieces against the whole table |
| ProductController.LinkAttributes | controllers/productController.js:43-75 | the failure is the first failing lookup or link statement; on success exactly the planned link rows are appended, on failure nothing changes, and the other tables and the counter stay as they were |
| ProductController.WriteRows | controllers/productController.js:33-87 | the failure is the first failing write or commit; on success the product row, its links and its image rows are appended and the transaction is committed; on failure the transaction is still open; the counter moves exactly when the product row went in |
| ProductController.WriteDependents | controllers/productController.js:49-87 | after the product INSERT, the failure is the first failing link insert, image insert or commit; on success the links and image rows are appended and the transaction is committed; on failure it is still open; products and the counter do not change |
| ProductController.StoreImagesAndCommit | controllers/productController.js:77-87 | the failure is the image INSERT when files were uploaded and it throws, else the COMMIT when it throws; on success the image rows are appended and the transaction is committed; on failure it is still open; the other tables and the counter do not change |
| ProductController.Transact | controllers/productController.js:8-87 | the failure is the first thing in the try block to throw; on success the tables are the old ones with the plan applied; a failed BEGIN leaves everything as it was; any later failure leaves the transaction open with the snapshot BEGIN took |
| ProductController.Create | controllers/productController.js:5-106 | the response is 201 with the old counter value as id when nothing throws, else 500 with the first cause; the tables end up with the plan applied on 201 and as before on 500; the counter moves exactly when the product row went in; a connection obtained is released, and its transaction ends committed, never opened or rolled back as `FinalState` says |
| ProductController.UnissuedStatementIrrelevant | controllers/productController.js:49-85 | a statement `create` does not issue for the request cannot change how it fails |
| ProductController.NonJsonAttributesFail | controllers/productController.js:24 | a truthy `selectedAttributes` that is not JSON fails with a 500 once the transaction is open, and inserts no product row |
| ProductController.TwoPieces | controllers/productController.js:43-45 | two comma-free, unpadded pieces joined by a comma normalise to exactly those pieces |
| ProductController.JsonArrayTextKeepsBrackets | controllers/productController.js:24-45 | the JSON array text `["Green","Large"]` normalises to the pieces `["Green"` and `"Large"]` |
| ProductController.UnmatchedValuesLinkNothing | controllers/productController.js:51-74 | requested values that no table row carries give no link and the link INSERT is not issued |
| ProductController.JsonArrayTextResolvesNothing | controllers/productController.js:24-74 | against a table whose values hold no square bracket, the JSON array text links nothing and issues no link INSERT |
| ProductController.BareProductAddsOneRow | controllers/productController.js:5-106 | a product without attributes and files adds no link and no image row, and is created exactly when none of the four statements it issues fails |
| ProductController.ImageFailureFailsRequest | controllers/productController.js:79-102 | a failing image INSERT makes the request fail |
| ProductController.FormatProduct | controllers/productController.js:150-153 | a row keeps its columns as fetched and gets as images the comma-free URLs that join to its concatenation, none for NULL or the empty text (also lines 210-212) |
| ProductController.ImageList | controllers/productController.js:152 | no image exactly for NULL or the empty text; otherwise the URLs joined with commas give back the concatenation, and no URL holds a comma |
| ProductController.ImageListInvertsGroupConcat | controllers/productController.js:141-152 | splitting the GROUP_CONCAT of comma-free URLs gives back the URLs, unless the only URL is empty |
| ProductController.GetAll | controllers/productController.js:126-167 | 500 exactly when the query throws; otherwise one view per row, in row order, with the columns as fetched and the images split |
| ProductController.GetById | controllers/productController.js:175-231 | a connection is released exactly when one was obtained; the query runs exactly when the id parses, for the parsed id; 400 exactly for NaN; 404 exactly for no row; 500 exactly when there is no connection or the query throws; 200 carries the first row formatted |
| ProductController.NonNumericIdRejected | controllers/productController.js:181-187 | the id "abc" gets 400 and issues no query |
| ProductController.TopTrendingIsAnInvalidId | controllers/productController.js:181-187 | the id "top-trending" gets 400 from `getById` |
| ProductController.TrailingTextIgnored | controllers/productController.js:181 | an id made of a numeral followed by any text that does not continue it (such as "12abc" or "12x") queries that number and is not rejected with 400 |

## Left out

- The other handlers, `userController` and the remaining routes are not part of this model. The
  routes name three handlers the controller does not define (`getTopTrending`, `deleteProduct`,
  `updateProduct`), and that is not modelled either.
- SQL is modelled as far as the controller depends on it: the lookup's WHERE clause, and
  all-or-nothing multi-row INSERTs. Not modelled: row order beyond table order, collation and
  case-insensitive matching of `IN`, and `GROUP_CONCAT`'s length limit.
- The `getAll` query has a missing comma after `c.name AS category_name` (line 140), so MySQL
  rejects it and the handler always answers 500. Only the formatting of lines 150-153 is
  modelled, over whatever the query would return, and the joins and the grouping are not.
- Which rows `getById`'s query returns is the parameter `fetch`.
- `getById`'s `parseFloat` of the price (line 213) is not modelled: floating point.
- `parseInt` on a numeral too long for a double is not modelled: it rounds, and the model keeps
  the exact number.
- `JSON.parse` is the predicate `isJson`, and its result is not used by the code.
- Not modelled: keys such as `__proto__` or `constructor` in `attributeMap`, which behave
  differently on a JavaScript object than on a map.
- Repeated form fields, which the body parser turns into arrays, are not modelled. Fields are
  missing or one string.
- A missing `req.body` or `req.files` is not modelled.
- Not modelled: a failing ROLLBACK, or one that throws inside the catch block.
- The `created_at` column and the category join are data the controller only passes along and
  are not modelled.
- Response messages, `console.error` logging and the HTTP response objects are left out. The
  responses are their status and payload.
- Concurrent requests are not modelled: connections run one at a time, and concurrent
  transactions and locking are left out.
- Store.Connection.InsertProduct: a failing INSERT keeps the AUTO_INCREMENT counter in the model,
  while InnoDB may already have drawn an id for it (a duplicate key, a foreign-key violation) and
  loses it. So the counter rows of `WriteRows`, `Transact` and `Create` count an id as used up
  exactly when the product row went in, which is a lower bound on what MySQL uses up. The
  controller never reads the counter except through `insertId`.
