/** How `create` turns requested attribute values into attribute ids
    (controllers/productController.js, lines 51-69): look the values up, build a value-to-id map
    from the rows found, send every requested value through the map and keep the truthy ids. */
module AttributeResolution {
  import opened Store

  /** The value-to-id object built by `forEach` over the looked-up rows: every value that occurs
      in the rows is a key, and a later row with the same value overwrites an earlier one. */
  function AttributeMap(rows: seq<AttributeRow>): (m: map<string, int>)
    ensures forall v :: v in m <==> exists i :: 0 <= i < |rows| && rows[i].value == v
    decreases |rows|
  {
    if rows == [] then map[]
    else
      var last := rows[|rows| - 1];
      var m := AttributeMap(rows[..|rows| - 1]);
      assert forall v :: v in m <==> exists i :: 0 <= i < |rows| - 1 && rows[i].value == v;
      m[last.value := last.id]
  }

  /** When several rows carry the same value, the map holds the id of the last of them. */
  lemma {:induction false} LastRowWins(rows: seq<AttributeRow>, i: nat)
    requires i < |rows|
    requires forall j :: i < j < |rows| ==> rows[j].value != rows[i].value
    ensures rows[i].value in AttributeMap(rows)
    ensures AttributeMap(rows)[rows[i].value] == rows[i].id
    decreases |rows|
  {
    if i < |rows| - 1 {
      LastRowWins(rows[..|rows| - 1], i);
    }
  }

  /** Every entry of the map comes from a row: its key is the row's value and its id the row's. */
  lemma {:induction false} EntryFromRow(rows: seq<AttributeRow>, v: string)
    requires v in AttributeMap(rows)
    ensures exists i :: 0 <= i < |rows| && rows[i].value == v && rows[i].id == AttributeMap(rows)[v]
    decreases |rows|
  {
    var last := rows[|rows| - 1];
    if last.value != v {
      EntryFromRow(rows[..|rows| - 1], v);
      var i :| 0 <= i < |rows| - 1 && rows[..|rows| - 1][i].value == v
        && rows[..|rows| - 1][i].id == AttributeMap(rows[..|rows| - 1])[v];
      assert rows[i].value == v && rows[i].id == AttributeMap(rows)[v];
    } else {
      assert rows[|rows| - 1].id == AttributeMap(rows)[v];
    }
  }

  /** Lines 57-60: fill the map row by row. */
  method BuildAttributeMap(rows: seq<AttributeRow>) returns (m: map<string, int>)
    ensures m == AttributeMap(rows)
  {
    m := map[];
    var i := 0;
    while i < |rows|
      invariant 0 <= i <= |rows|
      invariant m == AttributeMap(rows[..i])
    {
      assert rows[..i + 1][..i] == rows[..i];
      m := m[rows[i].value := rows[i].id];
      i := i + 1;
    }
    assert rows[..|rows|] == rows;
  }

  /** A requested value that the map lacks or maps to 0 contributes nothing; one that it maps to
      a truthy id contributes exactly that id. */
  predicate Hits(v: string, m: map<string, int>) {
    v in m && m[v] != 0
  }

  /** Lines 63-65: every requested value through the map, in order; a value the map lacks gives
      `undefined` and an id of 0 is falsy, and `filter` drops both. */
  function Resolve(requested: seq<string>, m: map<string, int>): (ids: seq<int>)
    ensures |ids| <= |requested|
    ensures forall k :: 0 <= k < |ids| ==> ids[k] != 0 && ids[k] in m.Values
    decreases |requested|
  {
    if requested == [] then []
    else
      var v := requested[0];
      (if Hits(v, m) then [m[v]] else []) + Resolve(requested[1..], m)
  }

  /** Resolution works value by value: it preserves the order of the requested values. */
  lemma {:induction false} ResolveAppend(a: seq<string>, b: seq<string>, m: map<string, int>)
    ensures Resolve(a + b, m) == Resolve(a, m) + Resolve(b, m)
    decreases |a|
  {
    if a != [] {
      assert (a + b)[0] == a[0] && (a + b)[1..] == a[1..] + b;
      ResolveAppend(a[1..], b, m);
    } else {
      assert a + b == b;
    }
  }

  /** An id is produced exactly when some requested value hits it in the map. */
  lemma {:induction false} ResolveMembership(requested: seq<string>, m: map<string, int>, id: int)
    ensures id in Resolve(requested, m)
        <==> exists k :: 0 <= k < |requested| && Hits(requested[k], m) && m[requested[k]] == id
    decreases |requested|
  {
    if requested != [] {
      ResolveMembership(requested[1..], m, id);
      if id in Resolve(requested[1..], m) {
        var k :| 0 <= k < |requested| - 1 && Hits(requested[1..][k], m) && m[requested[1..][k]] == id;
        assert requested[k + 1] == requested[1..][k];
      }
      if exists k :: 0 <= k < |requested| && Hits(requested[k], m) && m[requested[k]] == id {
        var k :| 0 <= k < |requested| && Hits(requested[k], m) && m[requested[k]] == id;
        if k > 0 {
          assert requested[1..][k - 1] == requested[k];
        }
      }
    }
  }

  /** When every requested value hits, the ids are the values' ids position by position:
      nothing is reordered and duplicates are kept. */
  lemma {:induction false} ResolveAllHit(requested: seq<string>, m: map<string, int>)
    requires forall k :: 0 <= k < |requested| ==> Hits(requested[k], m)
    ensures |Resolve(requested, m)| == |requested|
    ensures forall k :: 0 <= k < |requested| ==> requested[k] in m && Resolve(requested, m)[k] == m[requested[k]]
    decreases |requested|
  {
    if requested != [] {
      assert Hits(requested[0], m);
      ResolveAllHit(requested[1..], m);
    }
  }

  /** When no requested value hits, nothing is produced and no attribute row is inserted. */
  lemma {:induction false} ResolveNoHit(requested: seq<string>, m: map<string, int>)
    requires forall k :: 0 <= k < |requested| ==> !Hits(requested[k], m)
    ensures Resolve(requested, m) == []
    decreases |requested|
  {
    if requested != [] {
      assert !Hits(requested[0], m);
      ResolveNoHit(requested[1..], m);
    }
  }

  /** Resolution only looks at the map's entries for the requested values. */
  lemma {:induction false} ResolveAgrees(requested: seq<string>, m1: map<string, int>, m2: map<string, int>)
    requires forall k :: 0 <= k < |requested| ==>
      (requested[k] in m1 <==> requested[k] in m2) && (requested[k] in m1 ==> m1[requested[k]] == m2[requested[k]])
    ensures Resolve(requested, m1) == Resolve(requested, m2)
    decreases |requested|
  {
    if requested != [] {
      assert requested[0] in m1 <==> requested[0] in m2;
      ResolveAgrees(requested[1..], m1, m2);
    }
  }

  /** For a requested value, the map built from the SELECT's rows has the same entry as the map of
      the whole table: the rows the WHERE clause drops carry other values. */
  lemma {:induction false} SelectionKeepsEntry(table: seq<AttributeRow>, values: seq<string>, v: string)
    requires v in values
    ensures v in AttributeMap(SelectByValues(table, values)) <==> v in AttributeMap(table)
    ensures v in AttributeMap(table) ==> AttributeMap(SelectByValues(table, values))[v] == AttributeMap(table)[v]
    decreases |table|
  {
    if table != [] {
      var init := table[..|table| - 1];
      var last := table[|table| - 1];
      SelectionKeepsEntry(init, values, v);
      var sel := SelectByValues(init, values);
      if last.value in values {
        assert SelectByValues(table, values) == sel + [last];
        assert (sel + [last])[..|sel|] == sel;
      } else {
        assert SelectByValues(table, values) == sel;
      }
    }
  }

  /** The ids resolved from the rows the SELECT returns are those the whole `attributes` table
      would give: the WHERE clause filters nothing that resolution could use. */
  lemma SelectionIrrelevant(values: seq<string>, table: seq<AttributeRow>)
    ensures Resolve(values, AttributeMap(SelectByValues(table, values))) == Resolve(values, AttributeMap(table))
  {
    var selected := AttributeMap(SelectByValues(table, values));
    forall k | 0 <= k < |values|
      ensures (values[k] in selected <==> values[k] in AttributeMap(table))
      ensures values[k] in selected ==> selected[values[k]] == AttributeMap(table)[values[k]]
    {
      SelectionKeepsEntry(table, values, values[k]);
    }
    ResolveAgrees(values, selected, AttributeMap(table));
  }

  /** Every id resolved from the SELECT's rows is the truthy id of a row of the table whose value
      was requested. */
  lemma ResolvedIdsComeFromTable(values: seq<string>, table: seq<AttributeRow>, k: nat)
    requires k < |Resolve(values, AttributeMap(SelectByValues(table, values)))|
    ensures var id := Resolve(values, AttributeMap(SelectByValues(table, values)))[k];
      id != 0 && exists i :: 0 <= i < |table| && table[i].id == id && table[i].value in values
  {
    SelectionIrrelevant(values, table);
    var m := AttributeMap(table);
    var id := Resolve(values, m)[k];
    ResolveMembership(values, m, id);
    var j :| 0 <= j < |values| && Hits(values[j], m) && m[values[j]] == id;
    EntryFromRow(table, values[j]);
  }

  /** Line 69: one `[productId, id]` pair per resolved id, in order. */
  function LinkRows(productId: int, ids: seq<int>): (links: seq<ProductAttributeRow>)
    ensures |links| == |ids|
    ensures forall k :: 0 <= k < |links| ==> links[k].productId == productId && links[k].attributeId == ids[k]
  {
    seq(|ids|, k requires 0 <= k < |ids| => ProductAttributeRow(productId, ids[k]))
  }
}
