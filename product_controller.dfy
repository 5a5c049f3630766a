/** The product controller: `create`, which inserts a product together with its attribute links
    and image rows in one transaction, and the result shaping of the readers `getAll` and `getById`.
    JSON.parse is the opaque validity predicate `isJson`; whether each statement fails is the
    oracle `fails`. */
module ProductController {
  import opened Wrappers
  import opened JsText
  import opened Store
  import opened AttributeResolution

  /** A text field of the multipart request body: missing, or the string sent. */
  datatype FormField = Absent | Text(s: string)

  /** JavaScript truthiness of a field value: a non-empty string. */
  predicate Truthy(f: FormField) {
    f.Text? && f.s != ""
  }

  /** The fields `create` reads from `req.body`. */
  datatype ProductForm = ProductForm(
    name: FormField, slug: FormField, shortDescription: FormField, description: FormField,
    price: FormField, stockQuantity: FormField,
    categoryId: FormField, subcategoryId: FormField, subSubcategoryId: FormField,
    selectedAttributes: FormField)

  /** What `create` receives: the body, and the paths the upload middleware stored the files
      under, in upload order (`req.files.map(file => file.path)`). */
  datatype CreateRequest = CreateRequest(body: ProductForm, files: seq<string>)

  /** `f || fallback`: a truthy field as sent, otherwise the fallback. */
  function OrElse(f: FormField, fallback: SqlValue): SqlValue {
    if Truthy(f) then Str(f.s) else fallback
  }

  /** Lines 37-38: the values bound to the product INSERT. A falsy price or stock quantity is
      stored as 0 and any other falsy field as NULL; a truthy field is stored as sent, and the
      raw `selectedAttributes` text goes to the `attribute` column. */
  function InsertValues(body: ProductForm): (v: ProductValues)
    ensures (v.price == Num(0) <==> !Truthy(body.price)) && (Truthy(body.price) ==> v.price == Str(body.price.s))
    ensures (v.stockQuantity == Num(0) <==> !Truthy(body.stockQuantity))
         && (Truthy(body.stockQuantity) ==> v.stockQuantity == Str(body.stockQuantity.s))
    ensures (v.name == Null <==> !Truthy(body.name)) && (v.slug == Null <==> !Truthy(body.slug))
         && (v.shortDescription == Null <==> !Truthy(body.shortDescription))
         && (v.description == Null <==> !Truthy(body.description))
         && (v.categoryId == Null <==> !Truthy(body.categoryId))
         && (v.subcategoryId == Null <==> !Truthy(body.subcategoryId))
         && (v.subSubcategoryId == Null <==> !Truthy(body.subSubcategoryId))
         && (v.attribute == Null <==> !Truthy(body.selectedAttributes))
    ensures Truthy(body.name) ==> v.name == Str(body.name.s)
    ensures Truthy(body.slug) ==> v.slug == Str(body.slug.s)
    ensures Truthy(body.shortDescription) ==> v.shortDescription == Str(body.shortDescription.s)
    ensures Truthy(body.description) ==> v.description == Str(body.description.s)
    ensures Truthy(body.categoryId) ==> v.categoryId == Str(body.categoryId.s)
    ensures Truthy(body.subcategoryId) ==> v.subcategoryId == Str(body.subcategoryId.s)
    ensures Truthy(body.subSubcategoryId) ==> v.subSubcategoryId == Str(body.subSubcategoryId.s)
    ensures Truthy(body.selectedAttributes) ==> v.attribute == Str(body.selectedAttributes.s)
  {
    ProductValues(
      OrElse(body.name, Null), OrElse(body.slug, Null),
      OrElse(body.shortDescription, Null), OrElse(body.description, Null),
      OrElse(body.price, Num(0)), OrElse(body.stockQuantity, Num(0)),
      OrElse(body.categoryId, Null), OrElse(body.subcategoryId, Null), OrElse(body.subSubcategoryId, Null),
      OrElse(body.selectedAttributes, Null))
  }

  /** Lines 43-45: a string `selectedAttributes` becomes its comma-separated pieces, each
      trimmed; a missing one stays missing. There is always at least one piece. */
  function NormalisedAttributes(f: FormField): (r: Option<seq<string>>)
    ensures r.None? <==> f.Absent?
    ensures f.Text? ==> |r.value| == |Split(f.s, ',')| >= 1
    ensures f.Text? ==> forall k :: 0 <= k < |r.value| ==> r.value[k] == Trim(Split(f.s, ',')[k])
  {
    match f
    case Absent => None
    case Text(s) =>
      var pieces := Split(s, ',');
      Some(seq(|pieces|, k requires 0 <= k < |pieces| => Trim(pieces[k])))
  }

  /** No normalised piece holds a comma or begins or ends with white space. */
  lemma NormalisedPiecesClean(f: FormField, k: nat)
    requires f.Text? && k < |NormalisedAttributes(f).value|
    ensures var piece := NormalisedAttributes(f).value[k];
      && ',' !in piece
      && (piece == [] || (!IsWhiteSpace(piece[0]) && !IsWhiteSpace(piece[|piece| - 1])))
  {
    var raw := Split(f.s, ',')[k];
    var piece := NormalisedAttributes(f).value[k];
    var start := |raw| - |TrimStart(raw)|;
    assert piece == raw[start..start + |piece|];
    assert ',' !in raw;
  }

  /** Line 49: the attribute lookup runs when the normalised value is a non-empty array. */
  predicate LooksUp(f: FormField) {
    NormalisedAttributes(f).Some? && |NormalisedAttributes(f).value| > 0
  }

  /** The lookup runs exactly when `selectedAttributes` was sent, even as an empty string,
      which normalises to one empty piece. */
  lemma LookupIffSent(f: FormField)
    ensures LooksUp(f) <==> f.Text?
    ensures f == Text("") ==> NormalisedAttributes(f) == Some([""])
  {
    if f == Text("") {
      assert Split("", ',') == [""];
      assert Trim("") == "";
      var r := NormalisedAttributes(f).value;
      assert |r| == 1 && r[0] == "";
      assert r == [""];
    }
  }

  /** Lines 51-65: the ids of the looked-up attribute rows, in the order of the requested values. */
  function ResolvedIds(f: FormField, table: seq<AttributeRow>): (ids: seq<int>)
    ensures !LooksUp(f) ==> ids == []
    ensures LooksUp(f) ==> ids == Resolve(NormalisedAttributes(f).value, AttributeMap(table))
  {
    if LooksUp(f) then
      var values := NormalisedAttributes(f).value;
      SelectionIrrelevant(values, table);
      Resolve(values, AttributeMap(SelectByValues(table, values)))
    else []
  }

  /** Line 80: one `[productId, path]` pair per uploaded file, in file order. */
  function ImageRows(productId: int, paths: seq<string>): (rows: seq<ProductImageRow>)
    ensures |rows| == |paths|
    ensures forall k :: 0 <= k < |rows| ==> rows[k].productId == productId && rows[k].imageUrl == paths[k]
  {
    seq(|paths|, k requires 0 <= k < |paths| => ProductImageRow(productId, paths[k]))
  }

  /** The rows a successful `create` adds. */
  datatype CreatePlan = CreatePlan(
    product: ProductRow,
    links: seq<ProductAttributeRow>,
    images: seq<ProductImageRow>)

  function PlanFor(req: CreateRequest, table: seq<AttributeRow>, id: int): CreatePlan {
    CreatePlan(
      ProductRow(id, InsertValues(req.body)),
      LinkRows(id, ResolvedIds(req.body.selectedAttributes, table)),
      ImageRows(id, req.files))
  }

  /** The tables with a plan's rows appended. */
  function Applied(t: Tables, p: CreatePlan): Tables {
    Tables(t.products + [p.product], t.productAttributes + p.links, t.productImages + p.images)
  }

  /** Every attribute link a successful `create` adds belongs to the new product and names the
      truthy id of an `attributes` row whose value was requested; without a lookup there is none. */
  lemma LinksFromTable(f: FormField, table: seq<AttributeRow>, id: int)
    ensures var links := LinkRows(id, ResolvedIds(f, table));
      && (links != [] ==> LooksUp(f))
      && forall k :: 0 <= k < |links| ==>
           && links[k].productId == id
           && links[k].attributeId != 0
           && exists i :: 0 <= i < |table| && table[i].id == links[k].attributeId &&
                          table[i].value in NormalisedAttributes(f).value
  {
    var links := LinkRows(id, ResolvedIds(f, table));
    if LooksUp(f) {
      forall k | 0 <= k < |links|
        ensures links[k].productId == id && links[k].attributeId != 0
        ensures exists i :: 0 <= i < |table| && table[i].id == links[k].attributeId &&
                            table[i].value in NormalisedAttributes(f).value
      {
        LinkFromTable(f, table, id, k);
      }
    }
  }

  /** One attribute link of the plan: the new product's id and the truthy id of a row of the
      table whose value was requested. */
  lemma LinkFromTable(f: FormField, table: seq<AttributeRow>, id: int, k: nat)
    requires LooksUp(f) && k < |ResolvedIds(f, table)|
    ensures var link := LinkRows(id, ResolvedIds(f, table))[k];
      && link.productId == id && link.attributeId != 0
      && exists i :: 0 <= i < |table| && table[i].id == link.attributeId && table[i].value in NormalisedAttributes(f).value
  {
    var values := NormalisedAttributes(f).value;
    var ids := ResolvedIds(f, table);
    assert LinkRows(id, ids)[k] == ProductAttributeRow(id, ids[k]);
    ResolvedIdsComeFromTable(values, table, k);
  }

  /** When every requested value names an attribute whose last row in the table has a truthy id,
      the links are those ids position by position: the order and the duplicates of the request
      survive, and a later duplicate row of the table wins. */
  lemma PlanLinksFollowRequest(req: CreateRequest, table: seq<AttributeRow>, id: int)
    requires req.body.selectedAttributes.Text?
    requires var values := NormalisedAttributes(req.body.selectedAttributes).value;
      forall k :: 0 <= k < |values| ==> Hits(values[k], AttributeMap(table))
    ensures var values := NormalisedAttributes(req.body.selectedAttributes).value;
      var links := PlanFor(req, table, id).links;
      && |links| == |values|
      && forall k :: 0 <= k < |links| ==>
           values[k] in AttributeMap(table) && links[k] == ProductAttributeRow(id, AttributeMap(table)[values[k]])
  {
    var f := req.body.selectedAttributes;
    var values := NormalisedAttributes(f).value;
    var m := AttributeMap(table);
    ResolvedIdsOfSent(f, table);
    ResolveAllHit(values, m);
    var ids := ResolvedIds(f, table);
    var links := PlanFor(req, table, id).links;
    assert links == LinkRows(id, ids) && |links| == |ids| == |values|;
    forall k | 0 <= k < |links|
      ensures values[k] in m && links[k] == ProductAttributeRow(id, m[values[k]])
    {
      assert links[k] == ProductAttributeRow(id, ids[k]);
      assert values[k] in m && ids[k] == m[values[k]];
    }
  }

  /** For a sent `selectedAttributes`, the resolved ids are those the whole `attributes` table
      gives the normalised values. */
  lemma ResolvedIdsOfSent(f: FormField, table: seq<AttributeRow>)
    requires f.Text?
    ensures ResolvedIds(f, table) == Resolve(NormalisedAttributes(f).value, AttributeMap(table))
  {
    LookupIffSent(f);
    SelectionIrrelevant(NormalisedAttributes(f).value, table);
  }

  /** The statements `create` can issue, in the order it issues them. */
  datatype Statement =
    | GetConnection | BeginTransaction | InsertProduct | SelectAttributes
    | InsertAttributes | InsertImages | Commit

  /** Why `create` answered 500: a statement threw, or JSON.parse threw on line 24. */
  datatype Cause = StatementFailed(statement: Statement) | InvalidJson

  /** Whether `create` issues the statement when the statements before it succeed: the lookup
      only for a sent `selectedAttributes`, the link INSERT only when an id resolved, the image
      INSERT only when files were uploaded (lines 49, 68, 79). */
  predicate Issues(req: CreateRequest, table: seq<AttributeRow>, st: Statement) {
    match st
    case SelectAttributes => LooksUp(req.body.selectedAttributes)
    case InsertAttributes => ResolvedIds(req.body.selectedAttributes, table) != []
    case InsertImages => req.files != []
    case _ => true
  }

  /** Line 24: JSON.parse runs only on a truthy `selectedAttributes`, and throws unless the text
      is valid JSON. Its result is not used. */
  predicate JsonAccepted(f: FormField, isJson: string -> bool) {
    !Truthy(f) || isJson(f.s)
  }

  /** The first statement of the attribute lookup and linking (lines 49-70) to throw. */
  function LinkFailure(req: CreateRequest, table: seq<AttributeRow>, fails: Statement -> bool): Option<Cause> {
    if Issues(req, table, SelectAttributes) && fails(SelectAttributes) then Some(StatementFailed(SelectAttributes))
    else if Issues(req, table, InsertAttributes) && fails(InsertAttributes) then Some(StatementFailed(InsertAttributes))
    else None
  }

  /** The first statement from the product INSERT to the COMMIT (lines 37-87) to throw. */
  function WriteFailure(req: CreateRequest, table: seq<AttributeRow>, fails: Statement -> bool): Option<Cause> {
    if fails(InsertProduct) then Some(StatementFailed(InsertProduct))
    else DependentsFailure(req, table, fails)
  }

  /** The first statement after the product INSERT (lines 49-87) to throw. */
  function DependentsFailure(req: CreateRequest, table: seq<AttributeRow>, fails: Statement -> bool): Option<Cause> {
    if LinkFailure(req, table, fails).Some? then LinkFailure(req, table, fails)
    else ImagesOrCommitFailure(req, table, fails)
  }

  /** The first of the image INSERT and the COMMIT (lines 77-87) to throw. */
  function ImagesOrCommitFailure(req: CreateRequest, table: seq<AttributeRow>, fails: Statement -> bool): Option<Cause> {
    if Issues(req, table, InsertImages) && fails(InsertImages) then Some(StatementFailed(InsertImages))
    else if fails(Commit) then Some(StatementFailed(Commit))
    else None
  }

  /** The first thing to throw inside the try block once a connection is held (lines 9-87). */
  function TransactionFailure(req: CreateRequest, table: seq<AttributeRow>, isJson: string -> bool, fails: Statement -> bool): Option<Cause> {
    if fails(BeginTransaction) then Some(StatementFailed(BeginTransaction))
    else if !JsonAccepted(req.body.selectedAttributes, isJson) then Some(InvalidJson)
    else WriteFailure(req, table, fails)
  }

  /** The first thing to throw in `create`, if anything does. */
  function FirstFailure(req: CreateRequest, table: seq<AttributeRow>, isJson: string -> bool, fails: Statement -> bool): Option<Cause> {
    if fails(GetConnection) then Some(StatementFailed(GetConnection))
    else TransactionFailure(req, table, isJson, fails)
  }

  /** Whether the product row had gone in when `failure` happened (or nothing failed). */
  predicate InsertedBefore(failure: Option<Cause>) {
    || failure.None?
    || (failure.value.StatementFailed? && failure.value.statement in {SelectAttributes, InsertAttributes, InsertImages, Commit})
  }

  /** Whether `create` inserts the product row: its AUTO_INCREMENT id is then used up, even
      when the transaction is rolled back afterwards. */
  predicate ProductInserted(req: CreateRequest, table: seq<AttributeRow>, isJson: string -> bool, fails: Statement -> bool) {
    InsertedBefore(FirstFailure(req, table, isJson, fails))
  }

  /** The response of `create`: 201 with the new id (lines 89-93) or 500 (lines 98-102). */
  datatype CreateResponse = Created(productId: int) | CreateFailed(cause: Cause) {
    function Status(): nat {
      if Created? then 201 else 500
    }
  }

  function ExpectedResponse(req: CreateRequest, table: seq<AttributeRow>, isJson: string -> bool, fails: Statement -> bool, id: int): CreateResponse {
    match FirstFailure(req, table, isJson, fails)
    case None => Created(id)
    case Some(c) => CreateFailed(c)
  }

  /** Where the connection's transaction ends up after `create`. */
  function FinalState(response: CreateResponse): TxState {
    if response.Created? then Committed
    else if response == CreateFailed(StatementFailed(BeginTransaction)) then NoTransaction
    else RolledBack
  }

  /** Lines 43-70: look the requested attribute values up and link the product to every truthy
      id found. On success the links are appended; a failure leaves the tables as they were. */
  method LinkAttributes(connection: Connection, req: CreateRequest, productId: int, fails: Statement -> bool)
    returns (failure: Option<Cause>)
    modifies connection.db
    ensures failure == LinkFailure(req, connection.db.attributes, fails)
    ensures connection.db.products == old(connection.db.products)
    ensures connection.db.productImages == old(connection.db.productImages)
    ensures failure.None? ==>
      connection.db.productAttributes == old(connection.db.productAttributes) + LinkRows(productId, ResolvedIds(req.body.selectedAttributes, connection.db.attributes))
    ensures failure.Some? ==> connection.db.productAttributes == old(connection.db.productAttributes)
    ensures connection.db.nextId == old(connection.db.nextId)
  {
    var selected := req.body.selectedAttributes;
    var normalised := NormalisedAttributes(selected);
    var lookUp := LooksUp(selected);
    assert lookUp <==> normalised.Some? && |normalised.value| > 0;
    if lookUp {
      var rows, ok := connection.SelectAttributes(normalised.value, fails(SelectAttributes));
      if !ok {
        return Some(StatementFailed(SelectAttributes));
      }
      var attributeMap := BuildAttributeMap(rows);
      var ids := Resolve(normalised.value, attributeMap);
      assert ids == ResolvedIds(selected, connection.db.attributes);
      if |ids| > 0 {
        ok := connection.InsertProductAttributes(LinkRows(productId, ids), fails(InsertAttributes));
        if !ok {
          return Some(StatementFailed(InsertAttributes));
        }
      } else {
        assert LinkRows(productId, ids) == [];
      }
    } else {
      assert LinkRows(productId, ResolvedIds(selected, connection.db.attributes)) == [];
    }
    failure := None;
  }

  /** Lines 37-87, inside an open transaction: insert the product row, link its attributes,
      insert its image rows and commit. On success the three tables have the plan's rows
      appended and the transaction is committed; on a failure it is still open. */
  method WriteRows(connection: Connection, req: CreateRequest, fails: Statement -> bool)
    returns (failure: Option<Cause>, productId: int)
    requires connection.state == Active
    modifies connection, connection.db
    ensures failure == WriteFailure(req, connection.db.attributes, fails)
    ensures failure.None? ==>
      var plan := PlanFor(req, connection.db.attributes, old(connection.db.nextId));
      && productId == old(connection.db.nextId)
      && connection.state == Committed
      && connection.db.products == old(connection.db.products) + [plan.product]
      && connection.db.productAttributes == old(connection.db.productAttributes) + plan.links
      && connection.db.productImages == old(connection.db.productImages) + plan.images
    ensures failure.Some? ==> connection.state == Active
    ensures connection.db.nextId == old(connection.db.nextId) + if InsertedBefore(failure) then 1 else 0
    ensures connection.snapshot == old(connection.snapshot) && connection.released == old(connection.released)
  {
    var ok;
    productId, ok := connection.InsertProduct(InsertValues(req.body), fails(InsertProduct));
    if !ok {
      return Some(StatementFailed(InsertProduct)), productId;
    }
    failure := WriteDependents(connection, req, productId, fails);
  }

  /** Lines 49-87, once the product row is in: link its attributes, insert its image rows and
      commit. On success the links and the image rows are appended and the transaction is
      committed; on a failure it is still open. */
  method WriteDependents(connection: Connection, req: CreateRequest, productId: int, fails: Statement -> bool)
    returns (failure: Option<Cause>)
    requires connection.state == Active
    modifies connection, connection.db
    ensures failure == DependentsFailure(req, connection.db.attributes, fails)
    ensures connection.db.products == old(connection.db.products)
    ensures failure.None? ==>
      && connection.state == Committed
      && connection.db.productAttributes == old(connection.db.productAttributes) + LinkRows(productId, ResolvedIds(req.body.selectedAttributes, connection.db.attributes))
      && connection.db.productImages == old(connection.db.productImages) + ImageRows(productId, req.files)
    ensures failure.Some? ==> connection.state == Active
    ensures connection.db.nextId == old(connection.db.nextId)
    ensures connection.snapshot == old(connection.snapshot) && connection.released == old(connection.released)
  {
    failure := LinkAttributes(connection, req, productId, fails);
    if failure.Some? {
      return;
    }
    failure := StoreImagesAndCommit(connection, req, productId, fails);
  }

  /** Lines 77-87: insert one image row per uploaded file, then commit. On success the image
      rows are appended and the transaction is committed; on a failure it is still open. */
  method StoreImagesAndCommit(connection: Connection, req: CreateRequest, productId: int, fails: Statement -> bool)
    returns (failure: Option<Cause>)
    requires connection.state == Active
    modifies connection, connection.db
    ensures failure == ImagesOrCommitFailure(req, connection.db.attributes, fails)
    ensures connection.db.products == old(connection.db.products)
    ensures connection.db.productAttributes == old(connection.db.productAttributes)
    ensures failure.None? ==>
      && connection.state == Committed
      && connection.db.productImages == old(connection.db.productImages) + ImageRows(productId, req.files)
    ensures failure.Some? ==> connection.state == Active
    ensures connection.db.nextId == old(connection.db.nextId)
    ensures connection.snapshot == old(connection.snapshot) && connection.released == old(connection.released)
  {
    var db := connection.db;
    var ok;
    if |req.files| > 0 {
      ok := connection.InsertProductImages(ImageRows(productId, req.files), fails(InsertImages));
      if !ok {
        return Some(StatementFailed(InsertImages));
      }
    } else {
      assert ImageRows(productId, req.files) == [];
    }
    assert db.productImages == old(db.productImages) + ImageRows(productId, req.files);

    ok := connection.Commit(fails(Commit));
    if !ok {
      return Some(StatementFailed(Commit));
    }
    failure := None;
  }

  /** The try block of `create` (lines 9-87), on a connection just taken from the pool. On
      success the three tables hold the plan's rows and the transaction is committed; on a
      failure the transaction is still open with the tables BEGIN saw, or was never opened. */
  method Transact(connection: Connection, req: CreateRequest, isJson: string -> bool, fails: Statement -> bool)
    returns (failure: Option<Cause>, productId: int)
    requires connection.state == NoTransaction
    modifies connection, connection.db
    ensures failure == TransactionFailure(req, connection.db.attributes, isJson, fails)
    ensures failure.None? ==> && productId == old(connection.db.nextId)
                              && connection.state == Committed
                              && connection.db.Snapshot() == Applied(old(connection.db.Snapshot()), PlanFor(req, connection.db.attributes, productId))
    ensures failure == Some(StatementFailed(BeginTransaction)) ==>
      connection.state == NoTransaction && connection.db.Snapshot() == old(connection.db.Snapshot())
    ensures failure.Some? && failure != Some(StatementFailed(BeginTransaction)) ==>
      connection.state == Active && connection.snapshot == old(connection.db.Snapshot())
    ensures connection.db.nextId == old(connection.db.nextId) + if InsertedBefore(failure) then 1 else 0
    ensures connection.released == old(connection.released)
  {
    var ok := connection.BeginTransaction(fails(BeginTransaction));
    if !ok {
      return Some(StatementFailed(BeginTransaction)), 0;
    }
    if !JsonAccepted(req.body.selectedAttributes, isJson) {
      return Some(InvalidJson), 0;
    }
    failure, productId := WriteRows(connection, req, fails);
  }

  /** `create` (lines 5-106). A product row, its attribute links and its image rows are added
      together and committed with a 201 carrying the new id, or, should anything throw once the
      connection is held, the transaction is rolled back so that the three tables are as before,
      with a 500. The connection is released on every path on which one was obtained. */
  method Create(db: Database, req: CreateRequest, isJson: string -> bool, fails: Statement -> bool)
    returns (response: CreateResponse, connection: Connection?)
    modifies db
    ensures response == ExpectedResponse(req, db.attributes, isJson, fails, old(db.nextId))
    ensures db.Snapshot() == if response.Created? then Applied(old(db.Snapshot()), PlanFor(req, db.attributes, old(db.nextId)))
                             else old(db.Snapshot())
    ensures db.nextId == old(db.nextId) + if ProductInserted(req, db.attributes, isJson, fails) then 1 else 0
    ensures connection == null <==> fails(GetConnection)
    ensures connection != null ==> connection.db == db && connection.released && connection.state == FinalState(response)
  {
    connection := db.GetConnection(fails(GetConnection));
    if connection == null {
      response := CreateFailed(StatementFailed(GetConnection));
      return;
    }
    var failure, productId := Transact(connection, req, isJson, fails);
    if failure.Some? {
      connection.Rollback();
      response := CreateFailed(failure.value);
    } else {
      response := Created(productId);
    }
    connection.Release();
  }

  /** A statement that `create` does not issue for the request cannot make it fail: with no
      `selectedAttributes` no lookup runs, with no resolved id no link INSERT runs, and with no
      file no image INSERT runs. */
  lemma UnissuedStatementIrrelevant(req: CreateRequest, table: seq<AttributeRow>, isJson: string -> bool,
                                    fails: Statement -> bool, fails': Statement -> bool, st: Statement)
    requires !Issues(req, table, st)
    requires forall s :: s != st ==> fails'(s) == fails(s)
    ensures FirstFailure(req, table, isJson, fails') == FirstFailure(req, table, isJson, fails)
  {
    var all := [GetConnection, BeginTransaction, InsertProduct, SelectAttributes, InsertAttributes, InsertImages, Commit];
    forall k | 0 <= k < |all|
      ensures Issues(req, table, all[k]) && fails'(all[k]) <==> Issues(req, table, all[k]) && fails(all[k])
    {
      if all[k] != st {
        assert fails'(all[k]) == fails(all[k]);
      }
    }
    assert all[0] == GetConnection && all[1] == BeginTransaction && all[2] == InsertProduct;
    assert all[3] == SelectAttributes && all[4] == InsertAttributes && all[5] == InsertImages && all[6] == Commit;
  }

  /** A truthy `selectedAttributes` that is not JSON, such as the comma list "Green,Large",
      fails the whole request once the transaction is open: nothing is inserted. */
  lemma NonJsonAttributesFail(req: CreateRequest, table: seq<AttributeRow>, isJson: string -> bool, fails: Statement -> bool)
    requires Truthy(req.body.selectedAttributes) && !isJson(req.body.selectedAttributes.s)
    requires !fails(GetConnection) && !fails(BeginTransaction)
    ensures ExpectedResponse(req, table, isJson, fails, 0) == CreateFailed(InvalidJson)
    ensures !ProductInserted(req, table, isJson, fails)
  {
  }

  /** Two comma-free, already trimmed pieces joined by a comma normalise to exactly those pieces. */
  lemma TwoPieces(a: string, b: string)
    requires ',' !in a && ',' !in b
    requires a == [] || (!IsWhiteSpace(a[0]) && !IsWhiteSpace(a[|a| - 1]))
    requires b == [] || (!IsWhiteSpace(b[0]) && !IsWhiteSpace(b[|b| - 1]))
    ensures var r := NormalisedAttributes(Text(a + [','] + b));
      r.Some? && |r.value| == 2 && r.value[0] == a && r.value[1] == b
  {
    TrimKeepsUnpadded(a);
    TrimKeepsUnpadded(b);
    SplitTwo(a, b);
    NormalisedOfTrimmed(a + [','] + b, a, b);
  }

  lemma SplitTwo(a: string, b: string)
    requires ',' !in a && ',' !in b
    ensures var pieces := Split(a + [','] + b, ','); |pieces| == 2 && pieces[0] == a && pieces[1] == b
  {
    SplitAtSeparator(a, b, ',');
    SplitWithoutSeparator(b, ',');
  }

  lemma NormalisedOfTrimmed(s: string, a: string, b: string)
    requires var pieces := Split(s, ','); |pieces| == 2 && pieces[0] == a && pieces[1] == b
    requires Trim(a) == a && Trim(b) == b
    ensures var r := NormalisedAttributes(Text(s)); r.Some? && |r.value| == 2 && r.value[0] == a && r.value[1] == b
  {
    var r := NormalisedAttributes(Text(s)).value;
    assert r[0] == Trim(Split(s, ',')[0]) && r[1] == Trim(Split(s, ',')[1]);
  }

  /** A JSON array text passes line 24 but is then split on its raw commas, so the pieces keep
      their brackets and quotes. */
  lemma JsonArrayTextKeepsBrackets()
    ensures var r := NormalisedAttributes(Text("[\"Green\",\"Large\"]"));
      r.Some? && |r.value| == 2 && r.value[0] == "[\"Green\"" && r.value[1] == "\"Large\"]"
  {
    var a, b := "[\"Green\"", "\"Large\"]";
    assert "[\"Green\",\"Large\"]" == a + [','] + b;
    TwoPieces(a, b);
  }

  /** Requested values that no row of `attributes` carries resolve no id, so no attribute link
      is inserted and the link INSERT is not issued. */
  lemma UnmatchedValuesLinkNothing(req: CreateRequest, table: seq<AttributeRow>, id: int)
    requires req.body.selectedAttributes.Text?
    requires var values := NormalisedAttributes(req.body.selectedAttributes).value;
      forall k, i :: 0 <= k < |values| && 0 <= i < |table| ==> table[i].value != values[k]
    ensures PlanFor(req, table, id).links == []
    ensures !Issues(req, table, InsertAttributes)
  {
    var f := req.body.selectedAttributes;
    var values := NormalisedAttributes(f).value;
    var m := AttributeMap(table);
    forall k | 0 <= k < |values| ensures !Hits(values[k], m) {
      assert values[k] !in m;
    }
    ResolveNoHit(values, m);
    ResolvedIdsOfSent(f, table);
    assert LinkRows(id, []) == [];
  }

  /** So against an `attributes` table whose values hold no square bracket (such as "Green" and
      "Large"), the JSON array text resolves no id and no attribute link is inserted. */
  lemma JsonArrayTextResolvesNothing(req: CreateRequest, table: seq<AttributeRow>, id: int)
    requires req.body.selectedAttributes == Text("[\"Green\",\"Large\"]")
    requires forall i :: 0 <= i < |table| ==> '[' !in table[i].value && ']' !in table[i].value
    ensures PlanFor(req, table, id).links == []
    ensures !Issues(req, table, InsertAttributes)
  {
    JsonArrayTextKeepsBrackets();
    var values := NormalisedAttributes(req.body.selectedAttributes).value;
    assert values[0][0] == '[' && values[1][|values[1]| - 1] == ']';
    assert '[' in values[0] && ']' in values[1];
    BracketedValuesUnmatched(values, table);
    UnmatchedValuesLinkNothing(req, table, id);
  }

  lemma BracketedValuesUnmatched(values: seq<string>, table: seq<AttributeRow>)
    requires |values| == 2 && '[' in values[0] && ']' in values[1]
    requires forall i :: 0 <= i < |table| ==> '[' !in table[i].value && ']' !in table[i].value
    ensures forall k, i :: 0 <= k < |values| && 0 <= i < |table| ==> table[i].value != values[k]
  {
  }

  /** A product sent without attributes and without files adds exactly its product row, and
      succeeds unless one of the four statements it issues fails. */
  lemma BareProductAddsOneRow(req: CreateRequest, table: seq<AttributeRow>, isJson: string -> bool, fails: Statement -> bool, id: int)
    requires req.body.selectedAttributes == Absent && req.files == []
    ensures var p := PlanFor(req, table, id); p.links == [] && p.images == []
    ensures ExpectedResponse(req, table, isJson, fails, id).Created?
        <==> !fails(GetConnection) && !fails(BeginTransaction) && !fails(InsertProduct) && !fails(Commit)
  {
  }

  /** A failing image INSERT fails the request, which therefore leaves all three tables as they were. */
  lemma ImageFailureFailsRequest(req: CreateRequest, table: seq<AttributeRow>, isJson: string -> bool, fails: Statement -> bool, id: int)
    requires req.files != [] && fails(InsertImages)
    ensures ExpectedResponse(req, table, isJson, fails, id).CreateFailed?
  {
  }

  // ---- Readers -------------------------------------------------------------------------------

  /** A row of the reader queries: the product's columns, and the GROUP_CONCAT of its image URLs,
      NULL when it has none. */
  datatype ProductRecord = ProductRecord(columns: seq<(string, SqlValue)>, images: Option<string>)

  /** A row as the readers send it, with the images as an array. */
  datatype ProductView = ProductView(columns: seq<(string, SqlValue)>, images: seq<string>)

  /** Lines 152 and 212: a NULL or empty concatenation is no image; otherwise the pieces between
      commas, which joined with commas give back the concatenation. */
  function ImageList(images: Option<string>): (urls: seq<string>)
    ensures urls == [] <==> images.None? || images.value == ""
    ensures urls != [] ==> Join(urls, ',') == images.value
    ensures forall k :: 0 <= k < |urls| ==> ',' !in urls[k]
  {
    if images.None? || images.value == "" then []
    else
      SplitThenJoin(images.value, ',');
      Split(images.value, ',')
  }

  /** What `GROUP_CONCAT(pi.image_url)` yields for a product's image URLs: NULL when there are
      none, else the URLs joined with commas. */
  function GroupConcat(urls: seq<string>): Option<string> {
    if urls == [] then None else Some(Join(urls, ','))
  }

  /** Splitting undoes the concatenation, provided no URL holds a comma and the only image is not
      the empty URL (which concatenates to the empty, falsy string). */
  lemma ImageListInvertsGroupConcat(urls: seq<string>)
    requires forall k :: 0 <= k < |urls| ==> ',' !in urls[k]
    requires urls != [""]
    ensures ImageList(GroupConcat(urls)) == urls
  {
    if urls != [] {
      assert Join(urls, ',') != "" by {
        if |urls| > 1 {
          assert ',' in Join(urls, ',') by {
            assert Join(urls, ',') == urls[0] + [','] + Join(urls[1..], ',');
            assert Join(urls, ',')[|urls[0]|] == ',';
          }
        }
      }
      JoinThenSplit(urls, ',');
    }
  }

  /** Lines 150-153 and 210-212: the columns as fetched, with the concatenation of image URLs
      replaced by the comma-free URLs it joins. */
  function FormatProduct(record: ProductRecord): (view: ProductView)
    ensures view.columns == record.columns
    ensures view.images == [] <==> record.images.None? || record.images.value == ""
    ensures view.images != [] ==> Join(view.images, ',') == record.images.value
    ensures forall k :: 0 <= k < |view.images| ==> ',' !in view.images[k]
  {
    ProductView(record.columns, ImageList(record.images))
  }

  /** The response of `getAll`. */
  datatype ListResponse = Listed(products: seq<ProductView>) | ListFailed {
    function Status(): nat {
      if Listed? then 200 else 500
    }
  }

  /** `getAll` (lines 126-167) given what its query returned, None when it threw: one view per
      row, in row order, each with its columns as fetched and its images split into an array. */
  function GetAll(fetched: Option<seq<ProductRecord>>): (r: ListResponse)
    ensures r.ListFailed? <==> fetched.None?
    ensures r.Listed? ==> |r.products| == |fetched.value|
    ensures r.Listed? ==> forall k :: 0 <= k < |r.products| ==>
      r.products[k].columns == fetched.value[k].columns && r.products[k].images == ImageList(fetched.value[k].images)
    ensures fetched == Some([]) ==> r == Listed([])
  {
    match fetched
    case None => ListFailed
    case Some(rows) => Listed(seq(|rows|, k requires 0 <= k < |rows| => FormatProduct(rows[k])))
  }

  /** The response of `getById`. */
  datatype ByIdResponse = Found(product: ProductView) | InvalidId | NotFound | FetchFailed {
    function Status(): nat {
      match this
      case Found(_) => 200
      case InvalidId => 400
      case NotFound => 404
      case FetchFailed => 500
    }
  }

  /** What `getById` did: its response, the id it queried for (None when it issued no query),
      and whether it released a connection. */
  datatype ByIdOutcome = ByIdOutcome(response: ByIdResponse, queried: Option<int>, released: bool)

  /** `getById` (lines 175-231). `connected` says whether the pool handed out a connection and
      `fetch(id)` is what the product query returns for `id`, None when it throws. */
  function GetById(idParam: string, connected: bool, fetch: int -> Option<seq<ProductRecord>>): (o: ByIdOutcome)
    ensures o.released == connected
    ensures o.queried.Some? <==> connected && ParseInt(idParam).Some?
    ensures o.queried.Some? ==> o.queried == ParseInt(idParam)
    ensures o.response == InvalidId <==> connected && ParseInt(idParam).None?
    ensures o.response == NotFound <==> o.queried.Some? && fetch(o.queried.value) == Some([])
    ensures o.response == FetchFailed <==> !connected || (o.queried.Some? && fetch(o.queried.value).None?)
    ensures o.response.Found? ==> o.queried.Some? && var rows := fetch(o.queried.value);
      rows.Some? && rows.value != [] && o.response.product == FormatProduct(rows.value[0])
  {
    if !connected then ByIdOutcome(FetchFailed, None, false)
    else
      match ParseInt(idParam)
      case None => ByIdOutcome(InvalidId, None, true)
      case Some(id) =>
        match fetch(id)
        case None => ByIdOutcome(FetchFailed, Some(id), true)
        case Some(rows) =>
          if rows == [] then ByIdOutcome(NotFound, Some(id), true)
          else ByIdOutcome(Found(FormatProduct(rows[0])), Some(id), true)
  }

  /** "abc" is not an id: 400, and no query is issued. */
  lemma NonNumericIdRejected(fetch: int -> Option<seq<ProductRecord>>)
    ensures GetById("abc", true, fetch) == ByIdOutcome(InvalidId, None, true)
  {
    ParseIntOfNonNumeral("abc");
  }

  /** The id "top-trending" is not a number, so `getById` answers it with a 400. */
  lemma TopTrendingIsAnInvalidId(fetch: int -> Option<seq<ProductRecord>>)
    ensures GetById("top-trending", true, fetch).response == InvalidId
  {
    ParseIntOfNonNumeral("top-trending");
  }

  /** `parseInt` reads the leading digits and ignores what follows them, so "12abc" and "12x"
      both query product 12; only an 'x' right after a lone "0" would continue the numeral. */
  lemma TrailingTextIgnored(m: nat, rest: string, fetch: int -> Option<seq<ProductRecord>>)
    requires rest == [] || (!IsDigit(rest[0], 10) && (m == 0 ==> rest[0] != 'x' && rest[0] != 'X'))
    ensures GetById(NaturalText(m) + rest, true, fetch).queried == Some(m)
    ensures GetById(NaturalText(m) + rest, true, fetch).response != InvalidId
  {
    ParseIntOfNatural(m, rest);
  }

}
