/** The SQLite product store of `data/database.py`, as in-memory tables: the
    `products` table is a sequence of rows kept in id order, with the
    AUTOINCREMENT counter beside it, and the `metadata` table is a map from
    key to value. */
module Store {
  import opened Options
  import opened Sheets

  /** One row of the `products` table (the `updated_at` column is left out). */
  datatype Row = Row(id: nat, key: string, name: string, model: string, price: string)

  /** The metadata key under which a category's last update time is stored. */
  function MetaKey(key: string): string {
    "last_update_" + key
  }

  /** Distinct categories never share a metadata key. */
  lemma MetaKeyInjective(a: string, b: string)
    ensures MetaKey(a) == MetaKey(b) <==> a == b
  {
    if MetaKey(a) == MetaKey(b) {
      assert a == MetaKey(a)[12..];
      assert b == MetaKey(b)[12..];
    }
  }

  function ProductOfRow(r: Row): Product {
    Product(r.model, r.price)
  }

  /** `SELECT model, price ... WHERE category_key = key`, in row order. */
  function Select(rows: seq<Row>, key: string): seq<Product> {
    if rows == [] then []
    else
      var last := rows[|rows| - 1];
      Select(rows[..|rows| - 1], key) + (if last.key == key then [ProductOfRow(last)] else [])
  }

  /** `DELETE FROM products WHERE category_key = key`. */
  function Without(rows: seq<Row>, key: string): seq<Row> {
    if rows == [] then []
    else
      var last := rows[|rows| - 1];
      Without(rows[..|rows| - 1], key) + (if last.key == key then [] else [last])
  }

  /** The rows the insert loop of `save_products` appends, numbered from `firstId`. */
  function Inserted(firstId: nat, key: string, name: string, ps: seq<Product>): (r: seq<Row>)
    ensures |r| == |ps|
    ensures forall i :: 0 <= i < |ps| ==> r[i] == Row(firstId + i, key, name, ps[i].model, ps[i].price)
  {
    seq(|ps|, i requires 0 <= i < |ps| => Row(firstId + i, key, name, ps[i].model, ps[i].price))
  }

  /** The category keys that occur in some row. */
  function RowKeys(rows: seq<Row>): set<string> {
    set r | r in rows :: r.key
  }

  /** Ids strictly increase along the table, and are all below the counter. */
  predicate IdsOrdered(rows: seq<Row>, nextId: nat) {
    && (forall i, j :: 0 <= i < j < |rows| ==> rows[i].id < rows[j].id)
    && (forall i :: 0 <= i < |rows| ==> rows[i].id < nextId)
  }

  /** All rows of one category carry the same category name. */
  predicate OneNamePerKey(rows: seq<Row>) {
    forall i, j :: 0 <= i < |rows| && 0 <= j < |rows| && rows[i].key == rows[j].key ==> rows[i].name == rows[j].name
  }

  lemma {:induction false} SelectConcat(a: seq<Row>, b: seq<Row>, key: string)
    ensures Select(a + b, key) == Select(a, key) + Select(b, key)
    decreases |b|
  {
    if b == [] {
      assert a + b == a;
    } else {
      var init := b[..|b| - 1];
      assert (a + b)[..|a + b| - 1] == a + init;
      SelectConcat(a, init, key);
    }
  }

  lemma SelectStep(rows: seq<Row>, i: nat, key: string)
    requires i < |rows|
    ensures Select(rows[..i + 1], key) == Select(rows[..i], key)
              + (if rows[i].key == key then [ProductOfRow(rows[i])] else [])
  {
    assert rows[..i + 1][..i] == rows[..i];
  }

  /** One more row of a scan: its key joins the keys, and its product joins
      the products of that key only. */
  lemma ScanStep(rows: seq<Row>, i: nat)
    requires i < |rows|
    ensures RowKeys(rows[..i + 1]) == RowKeys(rows[..i]) + {rows[i].key}
    ensures forall k :: Select(rows[..i + 1], k)
                     == Select(rows[..i], k) + (if rows[i].key == k then [ProductOfRow(rows[i])] else [])
  {
    assert rows[..i + 1] == rows[..i] + [rows[i]];
    forall k ensures Select(rows[..i + 1], k)
                  == Select(rows[..i], k) + (if rows[i].key == k then [ProductOfRow(rows[i])] else []) {
      SelectStep(rows, i, k);
    }
  }

  /** A key occurs in the rows exactly when selecting it gives something. */
  lemma {:induction false} SelectEmptyIff(rows: seq<Row>, key: string)
    ensures Select(rows, key) == [] <==> key !in RowKeys(rows)
  {
    if rows != [] {
      var init := rows[..|rows| - 1];
      var last := rows[|rows| - 1];
      SelectEmptyIff(init, key);
      assert rows == init + [last];
      assert RowKeys(rows) == RowKeys(init) + {last.key};
    }
  }

  /** Deleting a key's rows keeps every other row, in order. */
  lemma {:induction false} SelectWithout(rows: seq<Row>, key: string, k: string)
    ensures Select(Without(rows, key), k) == if k == key then [] else Select(rows, k)
  {
    if rows != [] {
      var init := rows[..|rows| - 1];
      var last := rows[|rows| - 1];
      SelectWithout(init, key, k);
      if last.key != key {
        assert Without(rows, key) == Without(init, key) + [last];
        SelectConcat(Without(init, key), [last], k);
        assert [last][..0] == [];
        assert Select([last], k) == if last.key == k then [ProductOfRow(last)] else [];
      } else {
        assert Without(init, key) + [] == Without(init, key);
        assert Select(init, k) + [] == Select(init, k);
      }
    }
  }

  lemma {:induction false} WithoutSubseq(rows: seq<Row>, key: string)
    ensures forall r :: r in Without(rows, key) ==> r in rows && r.key != key
  {
    if rows != [] {
      WithoutSubseq(rows[..|rows| - 1], key);
    }
  }

  /** Selecting from freshly inserted rows gives the saved products back. */
  lemma {:induction false} SelectInserted(firstId: nat, key: string, name: string, ps: seq<Product>, k: string)
    ensures Select(Inserted(firstId, key, name, ps), k) == if k == key then ps else []
    decreases |ps|
  {
    if ps != [] {
      var init := ps[..|ps| - 1];
      assert Inserted(firstId, key, name, ps)[..|ps| - 1] == Inserted(firstId, key, name, init);
      SelectInserted(firstId, key, name, init, k);
    }
  }

  /** `COUNT(*)` of the group of rows with category key `key` and category
      name `name`. */
  function GroupCount(rows: seq<Row>, key: string, name: string): nat {
    if rows == [] then 0
    else
      var last := rows[|rows| - 1];
      GroupCount(rows[..|rows| - 1], key, name) + (if last.key == key && last.name == name then 1 else 0)
  }

  /** When every row of a key carries the same name, that key has a single
      group, and it counts all of the key's rows. */
  lemma {:induction false} GroupCountAll(rows: seq<Row>, key: string, name: string)
    requires forall i :: 0 <= i < |rows| && rows[i].key == key ==> rows[i].name == name
    ensures GroupCount(rows, key, name) == |Select(rows, key)|
  {
    if rows != [] {
      var init := rows[..|rows| - 1];
      assert forall i :: 0 <= i < |init| ==> init[i] == rows[i];
      GroupCountAll(init, key, name);
    }
  }

  /** After `save_products(key, name, ps)`, the saved key reads back exactly
      `ps`, in order, and every other key reads back what it held before. */
  lemma SelectAfterSave(rows: seq<Row>, nextId: nat, key: string, name: string, ps: seq<Product>, k: string)
    ensures Select(Without(rows, key) + Inserted(nextId, key, name, ps), k)
              == if k == key then ps else Select(rows, k)
  {
    SelectConcat(Without(rows, key), Inserted(nextId, key, name, ps), k);
    SelectWithout(rows, key, k);
    SelectInserted(nextId, key, name, ps, k);
  }

  class Database {
    var rows: seq<Row>
    var nextId: nat
    var metadata: map<string, string>

    /** Rows in id order below the counter, one name per category. */
    ghost predicate Valid()
      reads this
    {
      nextId >= 1 && IdsOrdered(rows, nextId) && OneNamePerKey(rows)
    }

    /** A fresh database file: both tables empty, ids starting at 1. */
    constructor ()
      ensures Valid()
      ensures rows == [] && metadata == map[] && nextId == 1
    {
      rows := [];
      nextId := 1;
      metadata := map[];
    }

    /** `save_products`: delete the key's rows, append one row per product
        with fresh ids, then upsert the key's update time `now`. */
    method SaveProducts(key: string, name: string, products: seq<Product>, now: string)
      requires Valid()
      modifies this
      ensures Valid()
      ensures rows == Without(old(rows), key) + Inserted(old(nextId), key, name, products)
      ensures nextId == old(nextId) + |products|
      ensures metadata == old(metadata)[MetaKey(key) := now]
      ensures GetProducts(key) == products
      ensures forall k :: k != key ==> GetProducts(k) == old(GetProducts(k))
      ensures GetLastUpdate(key) == Some(now)
    {
      var table := Without(rows, key);
      var id := nextId;
      var i := 0;
      while i < |products|
        invariant 0 <= i <= |products|
        invariant table == Without(old(rows), key) + Inserted(old(nextId), key, name, products[..i])
        invariant id == old(nextId) + i
        modifies {}
      {
        InsertedSnoc(old(nextId), key, name, products, i);
        table := table + [Row(id, key, name, products[i].model, products[i].price)];
        id := id + 1;
        i := i + 1;
      }
      assert products[..i] == products;
      SavedOrdered(old(rows), old(nextId), key, name, products);
      SavedNames(old(rows), Inserted(old(nextId), key, name, products), key, name);
      forall k ensures Select(table, k) == if k == key then products else Select(rows, k) {
        SelectAfterSave(rows, nextId, key, name, products, k);
      }
      rows := table;
      nextId := id;
      metadata := metadata[MetaKey(key) := now];
    }

    /** The saved rows follow the kept rows in id order, below the new counter. */
    static lemma SavedOrdered(rows: seq<Row>, n: nat, key: string, name: string, ps: seq<Product>)
      requires IdsOrdered(rows, n)
      ensures IdsOrdered(Without(rows, key) + Inserted(n, key, name, ps), n + |ps|)
    {
      var kept := Without(rows, key);
      var ins := Inserted(n, key, name, ps);
      var all := kept + ins;
      KeptOrdered(rows, key);
      assert IdsOrdered(kept, n);
      forall i, j | 0 <= i < j < |all| ensures all[i].id < all[j].id {
        if j < |kept| {
          assert all[i] == kept[i] && all[j] == kept[j];
        } else if i < |kept| {
          assert all[i] == kept[i] && all[j] == ins[j - |kept|];
        } else {
          assert all[i] == ins[i - |kept|] && all[j] == ins[j - |kept|];
        }
      }
      forall i | 0 <= i < |all| ensures all[i].id < n + |ps| {
        if i < |kept| {
          assert all[i] == kept[i];
        } else {
          assert all[i] == ins[i - |kept|];
        }
      }
    }

    /** The insert loop appends one numbered row per product. */
    static lemma InsertedSnoc(firstId: nat, key: string, name: string, ps: seq<Product>, i: nat)
      requires i < |ps|
      ensures Inserted(firstId, key, name, ps[..i + 1])
           == Inserted(firstId, key, name, ps[..i]) + [Row(firstId + i, key, name, ps[i].model, ps[i].price)]
    {
      var a := Inserted(firstId, key, name, ps[..i + 1]);
      var b := Inserted(firstId, key, name, ps[..i]) + [Row(firstId + i, key, name, ps[i].model, ps[i].price)];
      assert |a| == |b|;
      forall j | 0 <= j < |a| ensures a[j] == b[j] {
      }
    }

    /** A save keeps one name per category: the saved rows all carry the
        saved name, and the kept rows come from before. */
    static lemma SavedNames(old0: seq<Row>, ins: seq<Row>, key: string, name: string)
      requires OneNamePerKey(old0)
      requires forall i :: 0 <= i < |ins| ==> ins[i].key == key && ins[i].name == name
      ensures OneNamePerKey(Without(old0, key) + ins)
    {
      var kept := Without(old0, key);
      var all := kept + ins;
      forall a, b | 0 <= a < |all| && 0 <= b < |all| && all[a].key == all[b].key
        ensures all[a].name == all[b].name
      {
        NameOf(old0, kept, ins, key, name, a);
        NameOf(old0, kept, ins, key, name, b);
      }
    }

    /** The rows kept by the delete are still in id order below the counter. */
    static lemma {:induction false} KeptOrdered(rows: seq<Row>, key: string)
      ensures forall n: nat :: IdsOrdered(rows, n) ==> IdsOrdered(Without(rows, key), n)
    {
      if rows != [] {
        var init := rows[..|rows| - 1];
        var last := rows[|rows| - 1];
        KeptOrdered(init, key);
        WithoutSubseq(init, key);
        forall n: nat | IdsOrdered(rows, n) ensures IdsOrdered(Without(rows, key), n) {
          assert IdsOrdered(init, n);
          var w := Without(init, key);
          forall r | r in w ensures r.id < last.id {
            var j :| 0 <= j < |init| && init[j] == r;
          }
        }
      }
    }

    /** A row of the table after a save has the saved name when it has the
        saved key, and otherwise comes from before the save. */
    static lemma NameOf(old0: seq<Row>, kept: seq<Row>, ins: seq<Row>, key: string, name: string, a: nat)
      requires kept == Without(old0, key)
      requires forall i :: 0 <= i < |ins| ==> ins[i].key == key && ins[i].name == name
      requires a < |kept + ins|
      ensures (kept + ins)[a].key == key ==> (kept + ins)[a].name == name
      ensures (kept + ins)[a].key != key ==> (kept + ins)[a] in old0
    {
      WithoutSubseq(old0, key);
      if a < |kept| {
        assert (kept + ins)[a] == kept[a];
      } else {
        assert (kept + ins)[a] == ins[a - |kept|];
      }
    }

    /** `get_products`: the key's rows as (model, price) pairs in id order;
        `[]` for a key that has no rows. */
    function GetProducts(key: string): (r: seq<Product>)
      requires Valid()
      reads this
      ensures key !in RowKeys(rows) ==> r == []
    {
      SelectEmptyIff(rows, key);
      Select(rows, key)
    }

    /** `get_last_update`: the stored update time, or `None` for a key that
        was never saved. */
    function GetLastUpdate(key: string): (r: Option<string>)
      reads this
      ensures r.Some? <==> MetaKey(key) in metadata
      ensures r.Some? ==> r.value == metadata[MetaKey(key)]
    {
      if MetaKey(key) in metadata then Some(metadata[MetaKey(key)]) else None
    }

    /** `get_all_products`: a key per category that has rows, each with
        its rows in id order. */
    method GetAllProducts() returns (result: map<string, seq<Product>>)
      requires Valid()
      ensures result.Keys == RowKeys(rows)
      ensures forall k :: k in result ==> result[k] == GetProducts(k) && result[k] != []
    {
      result := map[];
      var i := 0;
      while i < |rows|
        invariant 0 <= i <= |rows|
        invariant result.Keys == RowKeys(rows[..i])
        invariant forall k :: k in result ==> result[k] == Select(rows[..i], k)
      {
        var row := rows[i];
        ScanStep(rows, i);
        if row.key !in result {
          SelectEmptyIff(rows[..i], row.key);
          result := result[row.key := []];
        }
        result := result[row.key := result[row.key] + [Product(row.model, row.price)]];
        i := i + 1;
      }
      assert rows[..i] == rows;
      forall k | k in result ensures result[k] != [] {
        SelectEmptyIff(rows, k);
      }
    }

    /** `get_stats`: the `COUNT(*)` of every (key, name) group, keyed by the
        category key. A valid table has one name per key, so each key with
        rows forms exactly one group, which counts all of its rows. */
    method GetStats() returns (stats: map<string, nat>)
      requires Valid()
      ensures stats.Keys == RowKeys(rows)
      ensures forall i :: 0 <= i < |rows| ==> stats[rows[i].key] == GroupCount(rows, rows[i].key, rows[i].name)
      ensures forall k :: k in stats ==> stats[k] == |GetProducts(k)| && stats[k] > 0
    {
      stats := map[];
      var i := 0;
      while i < |rows|
        invariant 0 <= i <= |rows|
        invariant stats.Keys == RowKeys(rows[..i])
        invariant forall k :: k in stats ==> stats[k] == |Select(rows[..i], k)|
      {
        var row := rows[i];
        ScanStep(rows, i);
        if row.key !in stats {
          SelectEmptyIff(rows[..i], row.key);
          stats := stats[row.key := 0];
        }
        stats := stats[row.key := stats[row.key] + 1];
        i := i + 1;
      }
      assert rows[..i] == rows;
      forall k | k in stats ensures stats[k] > 0 {
        SelectEmptyIff(rows, k);
      }
      forall i | 0 <= i < |rows| ensures stats[rows[i].key] == GroupCount(rows, rows[i].key, rows[i].name) {
        assert rows[i] in rows;
        GroupCountAll(rows, rows[i].key, rows[i].name);
      }
    }

    /** `clear_all`: both tables emptied; the AUTOINCREMENT counter survives. */
    method ClearAll()
      requires Valid()
      modifies this
      ensures Valid()
      ensures rows == [] && metadata == map[] && nextId == old(nextId)
      ensures forall k :: GetProducts(k) == [] && GetLastUpdate(k) == None
    {
      rows := [];
      metadata := map[];
    }
  }
}
