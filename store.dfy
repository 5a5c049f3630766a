/** The tables the product controller reads and writes, held in memory, and the pooled connection
    through which it runs a transaction. Any statement may fail: every statement method takes the
    failure oracle's answer for that statement as its `fail` parameter. */
module Store {

  /** A value bound to a statement parameter or held in a column. */
  datatype SqlValue = Null | Num(n: int) | Str(s: string)

  /** The ten values the product INSERT binds, in column order: name, slug, short_description,
      description, price, stock_quantity, category_id, subcategory_id, sub_subcategory_id, attribute. */
  datatype ProductValues = ProductValues(
    name: SqlValue, slug: SqlValue, shortDescription: SqlValue, description: SqlValue,
    price: SqlValue, stockQuantity: SqlValue,
    categoryId: SqlValue, subcategoryId: SqlValue, subSubcategoryId: SqlValue,
    attribute: SqlValue)

  /** A row of `products`: the generated id and the inserted values. */
  datatype ProductRow = ProductRow(id: int, values: ProductValues)

  /** A row of `attributes`, the reference data that maps an attribute value ("Green") to its id. */
  datatype AttributeRow = AttributeRow(id: int, value: string)

  /** A row of `product_attributes`. */
  datatype ProductAttributeRow = ProductAttributeRow(productId: int, attributeId: int)

  /** A row of `product_images`. */
  datatype ProductImageRow = ProductImageRow(productId: int, imageUrl: string)

  /** The contents of the three tables the product controller writes. */
  datatype Tables = Tables(
    products: seq<ProductRow>,
    productAttributes: seq<ProductAttributeRow>,
    productImages: seq<ProductImageRow>)

  /** `SELECT id, value FROM attributes WHERE value IN (values)`: the rows whose value is one of
      `values`, all of them, in table order. */
  function SelectByValues(table: seq<AttributeRow>, values: seq<string>): (r: seq<AttributeRow>)
    ensures |r| <= |table|
    ensures forall i :: 0 <= i < |r| ==> r[i] in table && r[i].value in values
    ensures forall row :: row in table && row.value in values ==> row in r
    decreases |table|
  {
    if table == [] then []
    else
      var last := table[|table| - 1];
      assert table == table[..|table| - 1] + [last];
      SelectByValues(table[..|table| - 1], values) + (if last.value in values then [last] else [])
  }

  class Database {
    var products: seq<ProductRow>
    var productAttributes: seq<ProductAttributeRow>
    var productImages: seq<ProductImageRow>
    /** The AUTO_INCREMENT counter of `products.id`: the id the next product row gets. */
    var nextId: int
    /** The `attributes` table, which nothing here writes. */
    const attributes: seq<AttributeRow>

    constructor (attributes: seq<AttributeRow>, firstId: int)
      ensures this.attributes == attributes && nextId == firstId
      ensures Snapshot() == Tables([], [], [])
    {
      this.attributes := attributes;
      products, productAttributes, productImages := [], [], [];
      nextId := firstId;
    }

    function Snapshot(): Tables
      reads this
    {
      Tables(products, productAttributes, productImages)
    }

    /** `db.getConnection()`: a fresh connection from the pool, or null when the pool fails. */
    method GetConnection(fail: bool) returns (c: Connection?)
      ensures c == null <==> fail
      ensures c != null ==> fresh(c) && c.db == this && c.state == NoTransaction && !c.released
    {
      if fail {
        c := null;
      } else {
        c := new Connection(this);
      }
    }
  }

  /** Where a connection stands with respect to a transaction. */
  datatype TxState = NoTransaction | Active | Committed | RolledBack

  class Connection {
    const db: Database
    var state: TxState
    /** The tables as BEGIN found them; ROLLBACK writes them back. */
    var snapshot: Tables
    var released: bool

    constructor (db: Database)
      ensures this.db == db && state == NoTransaction && !released
    {
      this.db := db;
      state := NoTransaction;
      snapshot := Tables([], [], []);
      released := false;
    }

    /** `connection.beginTransaction()`: remembers the tables as they are now. */
    method BeginTransaction(fail: bool) returns (ok: bool)
      modifies this
      ensures ok == !fail
      ensures ok ==> state == Active && snapshot == db.Snapshot()
      ensures !ok ==> state == old(state) && snapshot == old(snapshot)
      ensures released == old(released)
    {
      ok := !fail;
      if ok {
        state := Active;
        snapshot := db.Snapshot();
      }
    }

    /** The product INSERT: the new row takes the AUTO_INCREMENT value as its id, which
        `insertId` reports. A failing statement changes nothing. */
    method InsertProduct(values: ProductValues, fail: bool) returns (id: int, ok: bool)
      modifies db
      ensures ok == !fail
      ensures ok ==> id == old(db.nextId) && db.nextId == old(db.nextId) + 1
      ensures ok ==> db.products == old(db.products) + [ProductRow(id, values)]
      ensures !ok ==> db.nextId == old(db.nextId) && db.products == old(db.products)
      ensures db.productAttributes == old(db.productAttributes) && db.productImages == old(db.productImages)
    {
      ok := !fail;
      id := db.nextId;
      if ok {
        db.products := db.products + [ProductRow(id, values)];
        db.nextId := db.nextId + 1;
      }
    }

    /** The attribute lookup query of `create`; `ok` is false when it fails. */
    method SelectAttributes(values: seq<string>, fail: bool) returns (rows: seq<AttributeRow>, ok: bool)
      ensures ok == !fail
      ensures ok ==> rows == SelectByValues(db.attributes, values)
    {
      ok := !fail;
      rows := if ok then SelectByValues(db.attributes, values) else [];
    }

    /** `INSERT INTO product_attributes (product_id, attribute_id) VALUES ?` with all rows at once. */
    method InsertProductAttributes(rows: seq<ProductAttributeRow>, fail: bool) returns (ok: bool)
      modifies db
      ensures ok == !fail && db.nextId == old(db.nextId)
      ensures ok ==> db.productAttributes == old(db.productAttributes) + rows
      ensures !ok ==> db.productAttributes == old(db.productAttributes)
      ensures db.products == old(db.products) && db.productImages == old(db.productImages)
    {
      ok := !fail;
      if ok {
        db.productAttributes := db.productAttributes + rows;
      }
    }

    /** `INSERT INTO product_images (product_id, image_url) VALUES ?` with all rows at once. */
    method InsertProductImages(rows: seq<ProductImageRow>, fail: bool) returns (ok: bool)
      modifies db
      ensures ok == !fail && db.nextId == old(db.nextId)
      ensures ok ==> db.productImages == old(db.productImages) + rows
      ensures !ok ==> db.productImages == old(db.productImages)
      ensures db.products == old(db.products) && db.productAttributes == old(db.productAttributes)
    {
      ok := !fail;
      if ok {
        db.productImages := db.productImages + rows;
      }
    }

    /** `connection.commit()`: the tables stay as they are and the transaction is over. */
    method Commit(fail: bool) returns (ok: bool)
      modifies this
      ensures ok == !fail
      ensures state == if ok && old(state) == Active then Committed else old(state)
      ensures snapshot == old(snapshot) && released == old(released)
    {
      ok := !fail;
      if ok && state == Active {
        state := Committed;
      }
    }

    /** `connection.rollback()`: an active transaction's tables go back to what BEGIN found;
        without one it does nothing. The AUTO_INCREMENT counter is not given back. */
    method Rollback()
      modifies this, db
      ensures old(state) == Active ==> state == RolledBack && db.Snapshot() == old(snapshot)
      ensures old(state) != Active ==> state == old(state) && db.Snapshot() == old(db.Snapshot())
      ensures db.nextId == old(db.nextId) && snapshot == old(snapshot) && released == old(released)
    {
      if state == Active {
        db.products := snapshot.products;
        db.productAttributes := snapshot.productAttributes;
        db.productImages := snapshot.productImages;
        state := RolledBack;
      }
    }

    /** `connection.release()`: hands the connection back to the pool. */
    method Release()
      modifies this
      ensures released && state == old(state) && snapshot == old(snapshot)
    {
      released := true;
    }
  }
}
