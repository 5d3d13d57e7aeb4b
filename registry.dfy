/** The category registry (the bot's `CATEGORIES` configuration) and the
    sheet configuration (`SHEETS_CONFIG`). Both are ordered dictionaries in
    the bot; here they are sequences of (key, value) pairs in insertion
    order. */
module Registry {

  /** A subcategory of a container: always bound to one sheet. */
  datatype Sub = Sub(name: string, emoji: string, callback: string, sheetName: string)

  /** A top-level category: either bound straight to a sheet, or a container
      of subcategories. */
  datatype Node =
    | Direct(name: string, emoji: string, callback: string, sheetName: string)
    | Container(name: string, emoji: string, callback: string, subcategories: seq<(string, Sub)>)

  type Categories = seq<(string, Node)>

  /** A leaf of the registry: a direct category or a subcategory of a container. */
  datatype Leaf = Leaf(key: string, name: string, emoji: string, sheetName: string)

  /** One entry of the sheet configuration used by the main keyboard. */
  datatype SheetConfig = SheetConfig(sheetName: string, emoji: string, displayName: string, callback: string)

  /** The keys of an ordered dictionary are pairwise distinct. */
  predicate KeysDistinct<V>(s: seq<(string, V)>) {
    forall i, j :: 0 <= i < j < |s| ==> s[i].0 != s[j].0
  }

  function KeysOf<V>(s: seq<(string, V)>): (r: set<string>)
    ensures forall i :: 0 <= i < |s| ==> s[i].0 in r
    ensures forall k :: k in r ==> exists i :: 0 <= i < |s| && s[i].0 == k
  {
    set i | 0 <= i < |s| :: s[i].0
  }

  function SubLeaf(entry: (string, Sub)): Leaf {
    Leaf(entry.0, entry.1.name, entry.1.emoji, entry.1.sheetName)
  }

  /** The subcategories of one container, as leaves, in their order. */
  function SubsAsLeaves(subs: seq<(string, Sub)>): (r: seq<Leaf>)
    ensures |r| == |subs|
    ensures forall i :: 0 <= i < |subs| ==> r[i] == SubLeaf(subs[i])
  {
    seq(|subs|, i requires 0 <= i < |subs| => SubLeaf(subs[i]))
  }

  /** The direct categories as leaves, in registry order. */
  function DirectLeaves(cats: Categories): seq<Leaf> {
    if cats == [] then []
    else
      var last := cats[|cats| - 1];
      DirectLeaves(cats[..|cats| - 1])
        + (if last.1.Direct? then [DirectLeaf(last.0, last.1)] else [])
  }

  /** The subcategories of all containers as leaves, container by container. */
  function SubLeaves(cats: Categories): seq<Leaf> {
    if cats == [] then []
    else
      var last := cats[|cats| - 1];
      SubLeaves(cats[..|cats| - 1])
        + (if last.1.Container? then SubsAsLeaves(last.1.subcategories) else [])
  }

  /** Every leaf of the registry, in the order the cache visits them: first
      all direct categories, then all subcategories. */
  function Leaves(cats: Categories): seq<Leaf> {
    DirectLeaves(cats) + SubLeaves(cats)
  }

  /** The keys of a sequence of leaves. */
  function KeySet(ls: seq<Leaf>): set<string> {
    set l | l in ls :: l.key
  }

  /** The set of leaf keys: the keys the cache holds. */
  function LeafKeys(cats: Categories): set<string> {
    KeySet(Leaves(cats))
  }

  /** The sheet names of a sequence of leaves, in order. */
  function SheetNames(ls: seq<Leaf>): (r: seq<string>)
    ensures |r| == |ls|
    ensures forall i :: 0 <= i < |ls| ==> r[i] == ls[i].sheetName
  {
    seq(|ls|, i requires 0 <= i < |ls| => ls[i].sheetName)
  }

  function DirectLeaf(key: string, n: Node): Leaf
    requires n.Direct?
  {
    Leaf(key, n.name, n.emoji, n.sheetName)
  }

  /** Appending one category to a prefix of the registry appends its direct leaf, if any. */
  lemma DirectStep(cats: Categories, i: nat)
    requires i < |cats|
    ensures DirectLeaves(cats[..i + 1]) == DirectLeaves(cats[..i])
              + (if cats[i].1.Direct? then [DirectLeaf(cats[i].0, cats[i].1)] else [])
  {
    assert cats[..i + 1][..i] == cats[..i];
  }

  /** Appending one category to a prefix of the registry appends its subcategory leaves. */
  lemma ContainerStep(cats: Categories, i: nat)
    requires i < |cats|
    ensures SubLeaves(cats[..i + 1]) == SubLeaves(cats[..i])
              + (if cats[i].1.Container? then SubsAsLeaves(cats[i].1.subcategories) else [])
  {
    assert cats[..i + 1][..i] == cats[..i];
  }

  /** Appending one subcategory to a prefix appends its leaf. */
  lemma SubsStep(subs: seq<(string, Sub)>, j: nat)
    requires j < |subs|
    ensures SubsAsLeaves(subs[..j + 1]) == SubsAsLeaves(subs[..j]) + [SubLeaf(subs[j])]
  {
  }

  lemma KeySetSnoc(ls: seq<Leaf>, l: Leaf)
    ensures KeySet(ls + [l]) == KeySet(ls) + {l.key}
  {
    assert forall x :: x in ls + [l] <==> x in ls || x == l;
  }

  lemma KeySetConcat(a: seq<Leaf>, b: seq<Leaf>)
    ensures KeySet(a + b) == KeySet(a) + KeySet(b)
  {
    assert forall x :: x in a + b <==> x in a || x in b;
  }

  lemma SheetNamesConcat(a: seq<Leaf>, b: seq<Leaf>)
    ensures SheetNames(a + b) == SheetNames(a) + SheetNames(b)
  {
  }
}
