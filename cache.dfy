/** The in-memory leaf cache of `data/cache.py`: one list of products per
    leaf of the registry, refreshed wholesale from the spreadsheet reader,
    plus the handle of the auto-update task. */
module Cache {
  import opened Options
  import opened Registry
  import opened Sheets

  /** An identifier standing for the `asyncio.Task` object of the auto-updater. */
  type TaskId = nat

  /** `d.get(key, [])`: a total read that gives `[]` for an unknown key. */
  function Lookup(m: map<string, seq<Product>>, key: string): seq<Product> {
    if key in m then m[key] else []
  }

  /** The rows a connected reader returns for a leaf's sheet. */
  function FetchedFor(fetch: string -> FetchResult): Leaf -> seq<Product> {
    (l: Leaf) => SheetData(true, fetch(l.sheetName))
  }

  /** The rows every leaf starts with. */
  function NoRows(): Leaf -> seq<Product> {
    (l: Leaf) => []
  }

  /** `m` after assigning `m[l.key] = data(l)` for each leaf `l`, in order. */
  function Overwritten(m: map<string, seq<Product>>, ls: seq<Leaf>, data: Leaf -> seq<Product>)
    : map<string, seq<Product>>
  {
    if ls == [] then m
    else
      var last := ls[|ls| - 1];
      Overwritten(m, ls[..|ls| - 1], data)[last.key := data(last)]
  }

  lemma {:induction false} OverwrittenKeys(m: map<string, seq<Product>>, ls: seq<Leaf>, data: Leaf -> seq<Product>)
    ensures Overwritten(m, ls, data).Keys == m.Keys + KeySet(ls)
  {
    if ls != [] {
      var init := ls[..|ls| - 1];
      OverwrittenKeys(m, init, data);
      assert ls == init + [ls[|ls| - 1]];
      assert KeySet(ls) == KeySet(init) + {ls[|ls| - 1].key};
    }
  }

  lemma OverwrittenSnoc(m: map<string, seq<Product>>, ls: seq<Leaf>, l: Leaf, data: Leaf -> seq<Product>)
    ensures Overwritten(m, ls + [l], data) == Overwritten(m, ls, data)[l.key := data(l)]
  {
    assert (ls + [l])[..|ls|] == ls;
  }

  /** Overwriting with `a` and then with `b` is overwriting with `a + b`. */
  lemma {:induction false} OverwrittenConcat(m: map<string, seq<Product>>, a: seq<Leaf>, b: seq<Leaf>, data: Leaf -> seq<Product>)
    ensures Overwritten(m, a + b, data) == Overwritten(Overwritten(m, a, data), b, data)
    decreases |b|
  {
    if b == [] {
      assert a + b == a;
    } else {
      var init := b[..|b| - 1];
      assert (a + b)[..|a + b| - 1] == a + init;
      OverwrittenConcat(m, a, init, data);
    }
  }

  /** A leaf holds what was written for it, unless a later leaf with the same
      key overwrote it (last writer wins, as with repeated dict assignment). */
  lemma {:induction false} OverwrittenAt(m: map<string, seq<Product>>, ls: seq<Leaf>, data: Leaf -> seq<Product>, i: nat)
    requires i < |ls|
    requires forall j :: i < j < |ls| ==> ls[j].key != ls[i].key
    ensures ls[i].key in Overwritten(m, ls, data)
    ensures Overwritten(m, ls, data)[ls[i].key] == data(ls[i])
  {
    if i < |ls| - 1 {
      var init := ls[..|ls| - 1];
      OverwrittenAt(m, init, data, i);
    }
  }

  /** Keys that no leaf names keep their old contents: a refresh is not a merge
      into other keys. */
  lemma {:induction false} OverwrittenOther(m: map<string, seq<Product>>, ls: seq<Leaf>, data: Leaf -> seq<Product>, k: string)
    requires forall l :: l in ls ==> l.key != k
    ensures k in Overwritten(m, ls, data) <==> k in m
    ensures k in m ==> Overwritten(m, ls, data)[k] == m[k]
  {
    if ls != [] {
      var init := ls[..|ls| - 1];
      assert forall l :: l in init ==> l in ls;
      OverwrittenOther(m, init, data, k);
    }
  }

  /** A write made before the leaves are overwritten is undone by the same
      write made after them. */
  lemma {:induction false} OverwrittenUnderWrite(m: map<string, seq<Product>>, ls: seq<Leaf>, data: Leaf -> seq<Product>,
                                                 k: string, v: seq<Product>)
    ensures Overwritten(m[k := v], ls, data)[k := v] == Overwritten(m, ls, data)[k := v]
    decreases |ls|
  {
    if ls != [] {
      var init, last := ls[..|ls| - 1], ls[|ls| - 1];
      OverwrittenUnderWrite(m, init, data, k, v);
      var a := Overwritten(m[k := v], init, data);
      var b := Overwritten(m, init, data);
      assert Overwritten(m[k := v], ls, data) == a[last.key := data(last)];
      assert Overwritten(m, ls, data) == b[last.key := data(last)];
      if last.key != k {
        assert a[last.key := data(last)][k := v] == a[k := v][last.key := data(last)];
        assert b[last.key := data(last)][k := v] == b[k := v][last.key := data(last)];
      } else {
        assert a[last.key := data(last)][k := v] == a[k := v];
        assert b[last.key := data(last)][k := v] == b[k := v];
      }
    }
  }

  /** Refreshing twice from the same data is refreshing once: the second pass
      writes every leaf key with what the first pass wrote. */
  lemma {:induction false} OverwrittenIdempotent(m: map<string, seq<Product>>, ls: seq<Leaf>, data: Leaf -> seq<Product>)
    ensures Overwritten(Overwritten(m, ls, data), ls, data) == Overwritten(m, ls, data)
    decreases |ls|
  {
    if ls != [] {
      var init, last := ls[..|ls| - 1], ls[|ls| - 1];
      var once := Overwritten(m, init, data);
      OverwrittenIdempotent(m, init, data);
      OverwrittenUnderWrite(once, init, data, last.key, data(last));
    }
  }

  /** With pairwise distinct leaf keys (the usual registry), every leaf key holds
      exactly the rows of its own sheet after a refresh, empty lists included. */
  lemma RefreshedLeaf(m: map<string, seq<Product>>, ls: seq<Leaf>, fetch: string -> FetchResult, i: nat)
    requires i < |ls|
    requires forall a, b :: 0 <= a < b < |ls| ==> ls[a].key != ls[b].key
    ensures Lookup(Overwritten(m, ls, FetchedFor(fetch)), ls[i].key) == SheetData(true, fetch(ls[i].sheetName))
  {
    OverwrittenAt(m, ls, FetchedFor(fetch), i);
  }

  /** A dictionary from keys to counts, as its items in insertion order. */
  type Items = seq<(string, nat)>

  /** `d[k] = v`: an existing key keeps its place and takes the new value; a
      new key goes last. */
  function Assign(d: Items, k: string, v: nat): Items
    decreases |d|
  {
    if d == [] then [(k, v)]
    else if d[0].0 == k then [(k, v)] + d[1..]
    else [d[0]] + Assign(d[1..], k, v)
  }

  /** The items after `d[l.key] = len(m.get(l.key, []))` for each leaf `l`,
      in order. */
  function Counted(d: Items, m: map<string, seq<Product>>, ls: seq<Leaf>): Items {
    if ls == [] then d
    else
      var last := ls[|ls| - 1];
      Assign(Counted(d, m, ls[..|ls| - 1]), last.key, |Lookup(m, last.key)|)
  }

  /** Prepending an item whose key no other item has keeps the keys distinct. */
  lemma ConsDistinct(x: (string, nat), s: Items)
    requires KeysDistinct(s)
    requires forall e :: e in s ==> e.0 != x.0
    ensures KeysDistinct([x] + s)
  {
    var r := [x] + s;
    forall i, j | 0 <= i < j < |r| ensures r[i].0 != r[j].0 {
      assert r[j] == s[j - 1];
      if i > 0 { assert r[i] == s[i - 1]; }
    }
  }

  /** On a dictionary, `d[k] = v` keeps the keys distinct, replaces the item
      of `k` (if any) by `(k, v)` and keeps every other item; a new key is
      appended. */
  lemma {:induction false} AssignFacts(d: Items, k: string, v: nat)
    requires KeysDistinct(d)
    ensures KeysDistinct(Assign(d, k, v))
    ensures forall e :: e in Assign(d, k, v) <==> e == (k, v) || (e in d && e.0 != k)
    ensures (forall j :: 0 <= j < |d| ==> d[j].0 != k) ==> Assign(d, k, v) == d + [(k, v)]
    decreases |d|
  {
    if d != [] {
      var t := d[1..];
      assert d == [d[0]] + t;
      forall i, j | 0 <= i < j < |t| ensures t[i].0 != t[j].0 {
        assert t[i] == d[i + 1] && t[j] == d[j + 1];
      }
      forall e | e in t ensures e.0 != d[0].0 {
        var j :| 0 <= j < |t| && t[j] == e;
        assert d[j + 1] == e;
      }
      if d[0].0 == k {
        ConsDistinct((k, v), t);
      } else {
        AssignFacts(t, k, v);
        ConsDistinct(d[0], Assign(t, k, v));
        if forall j :: 0 <= j < |d| ==> d[j].0 != k {
          forall j | 0 <= j < |t| ensures t[j].0 != k {
            assert t[j] == d[j + 1];
          }
          assert [d[0]] + (t + [(k, v)]) == d + [(k, v)];
        }
      }
    }
  }

  /** `d[k] = v` for a key the dictionary does not hold appends the item. */
  lemma AssignNew(d: Items, k: string, v: nat)
    requires KeysDistinct(d)
    requires forall j :: 0 <= j < |d| ==> d[j].0 != k
    ensures Assign(d, k, v) == d + [(k, v)]
  {
    AssignFacts(d, k, v);
  }

  /** `d[k] = v` adds `k` to the keys of a dictionary and no other key. */
  lemma AssignKeys(d: Items, k: string, v: nat)
    requires KeysDistinct(d)
    ensures KeysOf(Assign(d, k, v)) == KeysOf(d) + {k}
  {
    AssignFacts(d, k, v);
    var a := Assign(d, k, v);
    forall x ensures x in KeysOf(a) <==> x in KeysOf(d) + {k} {
      if x in KeysOf(a) {
        var i :| 0 <= i < |a| && a[i].0 == x;
        assert a[i] in a;
        if a[i] != (k, v) {
          var j :| 0 <= j < |d| && d[j] == a[i];
        }
      }
      if x == k {
        assert (k, v) in a;
        var i :| 0 <= i < |a| && a[i] == (k, v);
      } else if x in KeysOf(d) {
        var j :| 0 <= j < |d| && d[j].0 == x;
        assert d[j] in d;
        var i :| 0 <= i < |a| && a[i] == d[j];
      }
    }
  }

  lemma CountedSnoc(d: Items, m: map<string, seq<Product>>, ls: seq<Leaf>, l: Leaf)
    ensures Counted(d, m, ls + [l]) == Assign(Counted(d, m, ls), l.key, |Lookup(m, l.key)|)
  {
    assert (ls + [l])[..|ls|] == ls;
  }

  /** Counting the leaves `a` and then `b` is counting `a + b`. */
  lemma {:induction false} CountedConcat(d: Items, m: map<string, seq<Product>>, a: seq<Leaf>, b: seq<Leaf>)
    ensures Counted(d, m, a + b) == Counted(Counted(d, m, a), m, b)
    decreases |b|
  {
    if b == [] {
      assert a + b == a;
    } else {
      var init := b[..|b| - 1];
      assert (a + b)[..|a + b| - 1] == a + init;
      CountedConcat(d, m, a, init);
    }
  }

  /** Counting keeps a dictionary: each key once, the keys before plus the
      leaf keys, and every key with the length of its list. */
  lemma {:induction false} CountedFacts(d: Items, m: map<string, seq<Product>>, ls: seq<Leaf>)
    requires KeysDistinct(d)
    requires forall e :: e in d ==> e.1 == |Lookup(m, e.0)|
    ensures KeysDistinct(Counted(d, m, ls))
    ensures KeysOf(Counted(d, m, ls)) == KeysOf(d) + KeySet(ls)
    ensures forall e :: e in Counted(d, m, ls) ==> e.1 == |Lookup(m, e.0)|
  {
    if ls != [] {
      var init, last := ls[..|ls| - 1], ls[|ls| - 1];
      assert ls == init + [last];
      KeySetSnoc(init, last);
      CountedFacts(d, m, init);
      var c := Counted(d, m, init);
      var v := |Lookup(m, last.key)|;
      assert Counted(d, m, ls) == Assign(c, last.key, v);
      AssignFacts(c, last.key, v);
      AssignKeys(c, last.key, v);
    }
  }

  /** With pairwise distinct leaf keys, counting from an empty dictionary
      gives one item per leaf, in leaf order. */
  lemma {:induction false} CountedInOrder(m: map<string, seq<Product>>, ls: seq<Leaf>)
    requires forall a, b :: 0 <= a < b < |ls| ==> ls[a].key != ls[b].key
    ensures |Counted([], m, ls)| == |ls|
    ensures forall i :: 0 <= i < |ls| ==> Counted([], m, ls)[i] == (ls[i].key, |Lookup(m, ls[i].key)|)
  {
    if ls != [] {
      var init, last := ls[..|ls| - 1], ls[|ls| - 1];
      CountedInOrder(m, init);
      var c := Counted([], m, init);
      var v := |Lookup(m, last.key)|;
      forall i, j | 0 <= i < j < |c| ensures c[i].0 != c[j].0 {
        assert c[i].0 == ls[i].key && c[j].0 == ls[j].key;
      }
      forall j | 0 <= j < |c| ensures c[j].0 != last.key {
        assert c[j].0 == ls[j].key;
      }
      AssignNew(c, last.key, v);
      assert Counted([], m, ls) == c + [(last.key, v)];
    }
  }

  class DataCache {
    /** `config.CATEGORIES`, fixed for the life of the cache. */
    const categories: Categories
    var cache: map<string, seq<Product>>
    var updateTask: Option<TaskId>

    /** The cache holds exactly the leaf keys of the registry. */
    ghost predicate Valid()
      reads this
    {
      cache.Keys == LeafKeys(categories)
    }

    constructor (categories: Categories)
      ensures Valid()
      ensures this.categories == categories
      ensures cache == Overwritten(map[], Leaves(categories), NoRows())
      ensures forall k :: k in cache ==> cache[k] == []
      ensures updateTask == None
    {
      this.categories := categories;
      cache := map[];
      updateTask := None;
      new;
      InitCache();
      OverwrittenKeys(map[], Leaves(categories), NoRows());
      forall k | k in cache ensures cache[k] == [] {
        EmptyEverywhere(map[], Leaves(categories), k);
      }
    }

    static lemma {:induction false} EmptyEverywhere(m: map<string, seq<Product>>, ls: seq<Leaf>, k: string)
      requires forall j :: j in m ==> m[j] == []
      requires k in Overwritten(m, ls, NoRows())
      ensures Overwritten(m, ls, NoRows())[k] == []
    {
      if ls != [] {
        var init := ls[..|ls| - 1];
        if k != ls[|ls| - 1].key { EmptyEverywhere(m, init, k); }
      }
    }

    /** `_init_cache`: `[]` for every direct category, then for every
        subcategory of every container. */
    method InitCache()
      modifies this`cache
      ensures cache == Overwritten(old(cache), Leaves(categories), NoRows())
    {
      InitDirect();
      InitContainers();
      OverwrittenConcat(old(cache), DirectLeaves(categories), SubLeaves(categories), NoRows());
    }

    /** The first loop of `_init_cache`: the direct categories. */
    method InitDirect()
      modifies this`cache
      ensures cache == Overwritten(old(cache), DirectLeaves(categories), NoRows())
    {
      ghost var done: seq<Leaf> := [];
      var i := 0;
      while i < |categories|
        invariant 0 <= i <= |categories|
        invariant done == DirectLeaves(categories[..i])
        invariant cache == Overwritten(old(cache), done, NoRows())
      {
        DirectStep(categories, i);
        var category := categories[i].1;
        if category.Direct? {
          var leaf := DirectLeaf(categories[i].0, category);
          OverwrittenSnoc(old(cache), done, leaf, NoRows());
          cache := cache[categories[i].0 := []];
          done := done + [leaf];
        }
        i := i + 1;
      }
      assert categories[..i] == categories;
    }

    /** The second loop of `_init_cache`: every subcategory of every container. */
    method InitContainers()
      modifies this`cache
      ensures cache == Overwritten(old(cache), SubLeaves(categories), NoRows())
    {
      ghost var done: seq<Leaf> := [];
      var i := 0;
      while i < |categories|
        invariant 0 <= i <= |categories|
        invariant done == SubLeaves(categories[..i])
        invariant cache == Overwritten(old(cache), done, NoRows())
      {
        ContainerStep(categories, i);
        if categories[i].1.Container? {
          var subs := categories[i].1.subcategories;
          OverwrittenConcat(old(cache), done, SubsAsLeaves(subs), NoRows());
          InitSubcategories(subs);
          done := done + SubsAsLeaves(subs);
        } else {
          assert done + [] == done;
        }
        i := i + 1;
      }
      assert categories[..i] == categories;
    }
    /** The inner loop of `_init_cache` over one container's subcategories. */
    method InitSubcategories(subs: seq<(string, Sub)>)
      modifies this`cache
      ensures cache == Overwritten(old(cache), SubsAsLeaves(subs), NoRows())
    {
      ghost var done: seq<Leaf> := [];
      var j := 0;
      while j < |subs|
        invariant 0 <= j <= |subs|
        invariant done == SubsAsLeaves(subs[..j])
        invariant cache == Overwritten(old(cache), done, NoRows())
      {
        SubsStep(subs, j);
        OverwrittenSnoc(old(cache), done, SubLeaf(subs[j]), NoRows());
        cache := cache[subs[j].0 := []];
        done := done + [SubLeaf(subs[j])];
        j := j + 1;
      }
      assert subs[..j] == subs;
    }

    /** `get_category`: the stored list for a known key, `[]` for any other key. */
    function GetCategory(key: string): (r: seq<Product>)
      reads this
      ensures key in cache ==> r == cache[key]
      ensures key !in cache ==> r == []
    {
      Lookup(cache, key)
    }

    /** `update_all` without its pacing sleeps. With no reader, or a reader that
        is not connected, nothing changes and nothing is requested. Otherwise
        every direct category and then every subcategory is overwritten with
        what the reader returns for its sheet (an empty list included), and
        `requested` lists the sheets asked for, in that order. */
    method UpdateAll(reader: SheetsReader?, fetch: string -> FetchResult) returns (requested: seq<string>)
      requires Valid()
      modifies this`cache
      ensures Valid()
      ensures reader == null || !reader.hasService ==> cache == old(cache) && requested == []
      ensures reader != null && reader.hasService ==>
                && cache == Overwritten(old(cache), Leaves(categories), FetchedFor(fetch))
                && requested == SheetNames(Leaves(categories))
    {
      requested := [];
      if reader == null || !reader.IsConnected() {
        return;
      }
      var direct := RefreshDirect(reader, fetch);
      var nested := RefreshContainers(reader, fetch);
      requested := direct + nested;
      OverwrittenConcat(old(cache), DirectLeaves(categories), SubLeaves(categories), FetchedFor(fetch));
      SheetNamesConcat(DirectLeaves(categories), SubLeaves(categories));
      OverwrittenKeys(old(cache), Leaves(categories), FetchedFor(fetch));
    }

    /** The first loop of `update_all`: every direct category, in registry order. */
    method RefreshDirect(reader: SheetsReader, fetch: string -> FetchResult) returns (requested: seq<string>)
      requires reader.hasService
      modifies this`cache
      ensures cache == Overwritten(old(cache), DirectLeaves(categories), FetchedFor(fetch))
      ensures requested == SheetNames(DirectLeaves(categories))
    {
      requested := [];
      ghost var done: seq<Leaf> := [];
      var i := 0;
      while i < |categories|
        invariant 0 <= i <= |categories|
        invariant done == DirectLeaves(categories[..i])
        invariant cache == Overwritten(old(cache), done, FetchedFor(fetch))
        invariant requested == SheetNames(done)
      {
        DirectStep(categories, i);
        var category := categories[i].1;
        if category.Direct? {
          var leaf := DirectLeaf(categories[i].0, category);
          OverwrittenSnoc(old(cache), done, leaf, FetchedFor(fetch));
          SheetNamesConcat(done, [leaf]);
          var data := reader.GetSheetData(fetch(category.sheetName));
          cache := cache[categories[i].0 := data];
          requested := requested + [category.sheetName];
          done := done + [leaf];
        }
        i := i + 1;
      }
      assert categories[..i] == categories;
    }

    /** The second loop of `update_all`: every subcategory of every container. */
    method RefreshContainers(reader: SheetsReader, fetch: string -> FetchResult) returns (requested: seq<string>)
      requires reader.hasService
      modifies this`cache
      ensures cache == Overwritten(old(cache), SubLeaves(categories), FetchedFor(fetch))
      ensures requested == SheetNames(SubLeaves(categories))
    {
      requested := [];
      ghost var done: seq<Leaf> := [];
      var i := 0;
      while i < |categories|
        invariant 0 <= i <= |categories|
        invariant done == SubLeaves(categories[..i])
        invariant cache == Overwritten(old(cache), done, FetchedFor(fetch))
        invariant requested == SheetNames(done)
      {
        ContainerStep(categories, i);
        if categories[i].1.Container? {
          var subs := categories[i].1.subcategories;
          OverwrittenConcat(old(cache), done, SubsAsLeaves(subs), FetchedFor(fetch));
          SheetNamesConcat(done, SubsAsLeaves(subs));
          var more := RefreshSubcategories(reader, subs, fetch);
          requested := requested + more;
          done := done + SubsAsLeaves(subs);
        } else {
          assert done + [] == done;
        }
        i := i + 1;
      }
      assert categories[..i] == categories;
    }

    /** `get_stats`: a dictionary that assigns, for every direct category
        and then every subcategory, the length of its cached list. It holds
        every leaf key once, with that length; with distinct leaf keys its
        items follow the leaves in order (`CountedInOrder`). */
    method GetStats() returns (stats: Items)
      ensures stats == Counted([], cache, Leaves(categories))
      ensures KeysDistinct(stats) && KeysOf(stats) == LeafKeys(categories)
      ensures forall e :: e in stats ==> e.1 == |GetCategory(e.0)|
    {
      stats := CountDirect();
      stats := CountContainers(stats);
      CountedConcat([], cache, DirectLeaves(categories), SubLeaves(categories));
      CountedFacts([], cache, Leaves(categories));
    }

    /** The first loop of `get_stats`: the direct categories. */
    method CountDirect() returns (stats: Items)
      ensures stats == Counted([], cache, DirectLeaves(categories))
    {
      stats := [];
      ghost var done: seq<Leaf> := [];
      var i := 0;
      while i < |categories|
        invariant 0 <= i <= |categories|
        invariant done == DirectLeaves(categories[..i])
        invariant stats == Counted([], cache, done)
      {
        DirectStep(categories, i);
        var category := categories[i].1;
        if category.Direct? {
          var leaf := DirectLeaf(categories[i].0, category);
          CountedSnoc([], cache, done, leaf);
          stats := Assign(stats, categories[i].0, |GetCategory(categories[i].0)|);
          done := done + [leaf];
        }
        i := i + 1;
      }
      assert categories[..i] == categories;
    }

    /** The second loop of `get_stats`: every subcategory of every container,
        assigned into the counts of the first loop. */
    method CountContainers(stats: Items) returns (result: Items)
      ensures result == Counted(stats, cache, SubLeaves(categories))
    {
      result := stats;
      ghost var done: seq<Leaf> := [];
      var i := 0;
      while i < |categories|
        invariant 0 <= i <= |categories|
        invariant done == SubLeaves(categories[..i])
        invariant result == Counted(stats, cache, done)
      {
        ContainerStep(categories, i);
        if categories[i].1.Container? {
          var subs := categories[i].1.subcategories;
          CountedConcat(stats, cache, done, SubsAsLeaves(subs));
          result := CountSubcategories(result, subs);
          done := done + SubsAsLeaves(subs);
        } else {
          assert done + [] == done;
        }
        i := i + 1;
      }
      assert categories[..i] == categories;
    }

    /** The inner loop of `update_all` over one container's subcategories. */
    method RefreshSubcategories(reader: SheetsReader, subs: seq<(string, Sub)>, fetch: string -> FetchResult)
      returns (requested: seq<string>)
      requires reader.hasService
      modifies this`cache
      ensures cache == Overwritten(old(cache), SubsAsLeaves(subs), FetchedFor(fetch))
      ensures requested == SheetNames(SubsAsLeaves(subs))
    {
      requested := [];
      ghost var done: seq<Leaf> := [];
      var j := 0;
      while j < |subs|
        invariant 0 <= j <= |subs|
        invariant done == SubsAsLeaves(subs[..j])
        invariant cache == Overwritten(old(cache), done, FetchedFor(fetch))
        invariant requested == SheetNames(done)
      {
        SubsStep(subs, j);
        OverwrittenSnoc(old(cache), done, SubLeaf(subs[j]), FetchedFor(fetch));
        SheetNamesConcat(done, [SubLeaf(subs[j])]);
        var data := reader.GetSheetData(fetch(subs[j].1.sheetName));
        cache := cache[subs[j].0 := data];
        requested := requested + [subs[j].1.sheetName];
        done := done + [SubLeaf(subs[j])];
        j := j + 1;
      }
      assert subs[..j] == subs;
    }

    /** The inner loop of `get_stats` over one container's subcategories. */
    method CountSubcategories(stats: Items, subs: seq<(string, Sub)>) returns (result: Items)
      ensures result == Counted(stats, cache, SubsAsLeaves(subs))
    {
      result := stats;
      ghost var done: seq<Leaf> := [];
      var j := 0;
      while j < |subs|
        invariant 0 <= j <= |subs|
        invariant done == SubsAsLeaves(subs[..j])
        invariant result == Counted(stats, cache, done)
      {
        SubsStep(subs, j);
        CountedSnoc(stats, cache, done, SubLeaf(subs[j]));
        result := Assign(result, subs[j].0, |GetCategory(subs[j].0)|);
        done := done + [SubLeaf(subs[j])];
        j := j + 1;
      }
      assert subs[..j] == subs;
    }

    /** `start_auto_update`: a no-op when a task exists, otherwise the new
        task becomes the current one. */
    method StartAutoUpdate(newTask: TaskId)
      modifies this`updateTask
      ensures old(updateTask).Some? ==> updateTask == old(updateTask)
      ensures old(updateTask).None? ==> updateTask == Some(newTask)
    {
      if updateTask.Some? {
        return;
      }
      updateTask := Some(newTask);
    }

    /** `stop_auto_update`: cancels the current task, if any, and clears the
        field; `cancelled` is the task that was cancelled. */
    method StopAutoUpdate() returns (cancelled: Option<TaskId>)
      modifies this`updateTask
      ensures cancelled == old(updateTask)
      ensures updateTask == None
    {
      cancelled := None;
      if updateTask.Some? {
        cancelled := updateTask;
        updateTask := None;
      }
    }
  }
}
