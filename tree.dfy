/**
 * The untyped dashboard document tree that the pop-up engine works on.
 *
 * A node is a mapping (ordered entries, key order observable during
 * traversal), a sequence, a string, or some other scalar (number, boolean,
 * null) whose value the engine never inspects.  Keys are strings.  A
 * document loaded from YAML never repeats a key within one mapping; lookups
 * and writes here act on the FIRST entry carrying a key, which is the only
 * one under that invariant.
 */
module Tree {

  datatype Option<+T> = None | Some(value: T)

  datatype Result<+T, +E> = Ok(value: T) | Err(error: E)

  datatype Node =
    | Mapping(entries: seq<Entry>)
    | Sequence(items: seq<Node>)
    | Str(text: string)
    | Scalar(repr: string)

  datatype Entry = Entry(key: string, value: Node)

  /** Position of the first entry whose key is `k`. */
  function IndexOf(es: seq<Entry>, k: string): (r: Option<nat>)
    ensures r.Some? ==> r.value < |es| && es[r.value].key == k
    ensures r.Some? ==> forall j :: 0 <= j < r.value ==> es[j].key != k
    ensures r.None? ==> forall j :: 0 <= j < |es| ==> es[j].key != k
  {
    if es == [] then None
    else if es[0].key == k then Some(0)
    else match IndexOf(es[1..], k)
      case None => None
      case Some(i) => Some(i + 1)
  }

  /** `k in mapping` */
  predicate HasKey(es: seq<Entry>, k: string)
  {
    IndexOf(es, k).Some?
  }

  /** `mapping.get(k)`, with None for an absent key. */
  function Get(es: seq<Entry>, k: string): Option<Node>
  {
    match IndexOf(es, k)
    case Some(i) => Some(es[i].value)
    case None => None
  }

  /** `node.get(k)` on a node that may not be a mapping at all. */
  function Field(n: Node, k: string): Option<Node>
  {
    if n.Mapping? then Get(n.entries, k) else None
  }

  /** Two entry lists with the same keys position by position. */
  predicate SameKeys(a: seq<Entry>, b: seq<Entry>)
  {
    |a| == |b| && forall i :: 0 <= i < |a| ==> a[i].key == b[i].key
  }

  lemma {:induction false} SameKeysIndexOf(a: seq<Entry>, b: seq<Entry>, k: string)
    requires SameKeys(a, b)
    ensures IndexOf(a, k) == IndexOf(b, k)
  {
    if a != [] && a[0].key != k {
      SameKeysIndexOf(a[1..], b[1..], k);
    }
  }

  /**
   * `mapping[k] = v` for a key the mapping already holds: the entry keeps
   * its position.  The engine only ever assigns to keys it has just found
   * present, so an absent key leaves the entries unchanged here.
   */
  function Put(es: seq<Entry>, k: string, v: Node): (r: seq<Entry>)
    ensures SameKeys(r, es)
    ensures forall k' :: IndexOf(r, k') == IndexOf(es, k')
    ensures Get(r, k) == if HasKey(es, k) then Some(v) else None
    ensures forall k' :: k' != k ==> Get(r, k') == Get(es, k')
  {
    var r := match IndexOf(es, k)
      case Some(i) => es[i := Entry(k, v)]
      case None => es;
    assert SameKeys(r, es);
    forall k' ensures IndexOf(r, k') == IndexOf(es, k') {
      SameKeysIndexOf(r, es, k');
    }
    r
  }

  /** A second write to a key overrides the first. */
  lemma PutTwice(es: seq<Entry>, k: string, v1: Node, v2: Node)
    ensures Put(Put(es, k, v1), k, v2) == Put(es, k, v2)
  {
    SameKeysIndexOf(Put(es, k, v1), es, k);
  }

  /** Every entry after a write is the old entry or the written one. */
  lemma PutEntries(es: seq<Entry>, k: string, v: Node)
    ensures forall j :: 0 <= j < |es| ==> Put(es, k, v)[j] == es[j] || Put(es, k, v)[j] == Entry(k, v)
  {
  }

  /** Writing to an absent key changes nothing. */
  lemma PutAbsent(es: seq<Entry>, k: string, v: Node)
    requires !HasKey(es, k)
    ensures Put(es, k, v) == es
  {
  }

  /** Writing back the value a key already holds changes nothing. */
  lemma PutSame(es: seq<Entry>, k: string, v: Node)
    requires Get(es, k) == Some(v)
    ensures Put(es, k, v) == es
  {
    var i := IndexOf(es, k).value;
    assert es[i] == Entry(k, v);
    assert es[i := Entry(k, v)] == es;
  }

  /** Number of nodes in a tree: the measure the area pass recurses on. */
  function Size(n: Node): nat
  {
    match n
    case Mapping(es) => 1 + EntriesSize(es)
    case Sequence(xs) => 1 + ItemsSize(xs)
    case _ => 1
  }

  function EntriesSize(es: seq<Entry>): nat
  {
    if es == [] then 0 else EntriesSize(es[..|es| - 1]) + Size(es[|es| - 1].value)
  }

  function ItemsSize(xs: seq<Node>): nat
  {
    if xs == [] then 0 else ItemsSize(xs[..|xs| - 1]) + Size(xs[|xs| - 1])
  }

  lemma {:induction false} EntrySizeBound(es: seq<Entry>, i: nat)
    requires i < |es|
    ensures Size(es[i].value) <= EntriesSize(es)
  {
    if i < |es| - 1 {
      EntrySizeBound(es[..|es| - 1], i);
    }
  }

  lemma {:induction false} ItemSizeBound(xs: seq<Node>, i: nat)
    requires i < |xs|
    ensures Size(xs[i]) <= ItemsSize(xs)
  {
    if i < |xs| - 1 {
      ItemSizeBound(xs[..|xs| - 1], i);
    }
  }

  /** Overwriting one value by a string never makes a mapping larger. */
  lemma {:induction false} PutStrSize(es: seq<Entry>, k: string, s: string)
    ensures EntriesSize(Put(es, k, Str(s))) <= EntriesSize(es)
  {
    match IndexOf(es, k)
    case None =>
    case Some(i) =>
      ReplaceSize(es, i, Entry(k, Str(s)));
  }

  lemma {:induction false} ReplaceSize(es: seq<Entry>, i: nat, e: Entry)
    requires i < |es| && Size(e.value) <= Size(es[i].value)
    ensures EntriesSize(es[i := e]) <= EntriesSize(es)
  {
    var r := es[i := e];
    if i == |es| - 1 {
      assert r[..|r| - 1] == es[..|es| - 1];
    } else {
      assert r[..|r| - 1] == es[..|es| - 1][i := e];
      ReplaceSize(es[..|es| - 1], i, e);
    }
  }

  /**
   * The node reached by following positions from the root: an entry
   * position inside a mapping, an item position inside a sequence.
   */
  function At(n: Node, path: seq<nat>): Option<Node>
    decreases |path|
  {
    if path == [] then Some(n)
    else match n
      case Mapping(es) => if path[0] < |es| then At(es[path[0]].value, path[1..]) else None
      case Sequence(xs) => if path[0] < |xs| then At(xs[path[0]], path[1..]) else None
      case _ => None
  }

  /**
   * The shape of a tree with every string's text erased: mapping keys,
   * lengths and non-string scalars are kept.
   */
  function Skeleton(n: Node): Node
  {
    match n
    case Mapping(es) => Mapping(seq(|es|, i requires 0 <= i < |es| => Entry(es[i].key, Skeleton(es[i].value))))
    case Sequence(xs) => Sequence(seq(|xs|, i requires 0 <= i < |xs| => Skeleton(xs[i])))
    case Str(_) => Str("")
    case Scalar(_) => n
  }
}
