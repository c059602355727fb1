/**
 YAML documents after parsing, as values, with the three path operations every
 layout rewrite is made of: lookup, store and pruning removal.

 A path is the list of keys a dotted path splits into.  A mapping is an ordered
 list of entries; like the source, lookups take the first entry with the key.
 */
module YamlTree {
  import opened Wrappers

  datatype Entry = Entry(key: string, value: Node)

  datatype Node =
    | Scalar(tag: string, text: string)
    | Mapping(entries: seq<Entry>)
    | Sequence(items: seq<Node>)

  type Path = seq<string>

  const EMPTY_MAP: Node := Mapping([])
  const EMPTY_STRING: Node := Scalar("!!str", "")

  predicate IsNull(n: Node) {
    n.Scalar? && n.tag == "!!null"
  }

  /** Value of the first entry with the key. */
  function Lookup(es: seq<Entry>, key: string): Option<Node> {
    if es == [] then None
    else if es[0].key == key then Some(es[0].value)
    else Lookup(es[1..], key)
  }

  function Child(n: Node, key: string): Option<Node> {
    if n.Mapping? then Lookup(n.entries, key) else None
  }

  function Get(n: Node, path: Path): Option<Node>
    decreases |path|
  {
    if path == [] then Some(n)
    else match Child(n, path[0])
      case None => None
      case Some(c) => Get(c, path[1..])
  }

  /** Overwrites the first entry with the key, or appends a new one. */
  function Put(es: seq<Entry>, key: string, v: Node): seq<Entry> {
    if es == [] then [Entry(key, v)]
    else if es[0].key == key then [Entry(key, v)] + es[1..]
    else [es[0]] + Put(es[1..], key, v)
  }

  /** Drops the first entry with the key. */
  function Remove(es: seq<Entry>, key: string): seq<Entry> {
    if es == [] then []
    else if es[0].key == key then es[1..]
    else [es[0]] + Remove(es[1..], key)
  }

  /** A node that is not a mapping is turned into an empty one before it is extended. */
  function EntriesOf(n: Node): seq<Entry> {
    if n.Mapping? then n.entries else []
  }

  /** The key's value, or the blank scalar that is appended for a missing key. */
  function ChildOrNew(n: Node, key: string): Node {
    var found := Child(n, key);
    if found.Some? then found.value else EMPTY_STRING
  }

  function Set(n: Node, path: Path, v: Node): Node
    decreases |path|
  {
    if path == [] then v
    else
      Mapping(Put(EntriesOf(n), path[0], Set(ChildOrNew(n, path[0]), path[1..], v)))
  }

  /** Removes the value at the path together with every ancestor mapping it leaves empty. */
  function Delete(n: Node, path: Path): Node
    requires path != []
    decreases |path|
  {
    match Child(n, path[0])
    case None => n
    case Some(c) =>
      if |path| == 1 then Mapping(Remove(n.entries, path[0]))
      else if Get(c, path[1..]).None? then n
      else
        var rest := Delete(c, path[1..]);
        if rest == EMPTY_MAP then Mapping(Remove(n.entries, path[0]))
        else Mapping(Put(n.entries, path[0], rest))
  }

  /** No mapping of the document repeats a key: what yaml decoding enforces before any rewrite. */
  predicate Unique(n: Node) {
    match n
    case Scalar(_, _) => true
    case Sequence(items) => forall i | 0 <= i < |items| :: Unique(items[i])
    case Mapping(es) => UniqueKeys(es) && forall i | 0 <= i < |es| :: Unique(es[i].value)
  }

  predicate UniqueKeys(es: seq<Entry>) {
    forall i, j | 0 <= i < j < |es| :: es[i].key != es[j].key
  }

  /** One path leads through or to the other. */
  predicate Comparable(p: Path, q: Path) {
    p <= q || q <= p
  }

  /** The keys of a dotted path, as strings.Split(path, ".") gives them. */
  function Split(path: string): (keys: Path)
    ensures keys != []
  {
    if path == "" then [""]
    else
      var rest := Split(path[1..]);
      if path[0] == '.' then [""] + rest else [[path[0]] + rest[0]] + rest[1..]
  }

  lemma SplitDotFree(key: string)
    requires '.' !in key
    ensures Split(key) == [key]
  {
    if key != "" {
      SplitDotFree(key[1..]);
      assert [key[0]] + key[1..] == key;
    }
  }

  lemma ProperPrefix(p: Path, q: Path)
    requires p <= q && p != q
    ensures p < q && |p| < |q|
  {
    assert q[..|q|] == q;
  }

  // ---- entry lists -------------------------------------------------------

  lemma LookupPut(es: seq<Entry>, key: string, v: Node, k: string)
    ensures Lookup(Put(es, key, v), k) == if k == key then Some(v) else Lookup(es, k)
  {
  }

  lemma LookupIsMember(es: seq<Entry>, key: string)
    ensures Lookup(es, key).Some? <==> exists i :: 0 <= i < |es| && es[i].key == key
    ensures Lookup(es, key).Some? ==> exists i :: 0 <= i < |es| && es[i] == Entry(key, Lookup(es, key).value)
  {
    if es != [] && es[0].key != key {
      LookupIsMember(es[1..], key);
      assert forall i | 0 <= i < |es[1..]| :: es[1..][i] == es[i + 1];
      assert forall i | 1 <= i < |es| :: es[i] == es[1..][i - 1];
    }
  }

  lemma LookupAt(es: seq<Entry>, i: nat)
    requires UniqueKeys(es) && i < |es|
    ensures Lookup(es, es[i].key) == Some(es[i].value)
  {
    if i > 0 { LookupAt(es[1..], i - 1); }
  }

  lemma LookupRemove(es: seq<Entry>, key: string, k: string)
    requires UniqueKeys(es)
    ensures Lookup(Remove(es, key), k) == if k == key then None else Lookup(es, k)
  {
    if es != [] {
      if es[0].key == key {
        LookupIsMember(es[1..], key);
      } else {
        LookupRemove(es[1..], key, k);
      }
    }
  }

  /** Entries of a removal are entries of the original, in order, none with the key. */
  lemma RemoveSubset(es: seq<Entry>, key: string)
    requires UniqueKeys(es)
    ensures UniqueKeys(Remove(es, key))
    ensures forall i | 0 <= i < |Remove(es, key)| :: Remove(es, key)[i] in es && Remove(es, key)[i].key != key
    ensures |es| - 1 <= |Remove(es, key)| <= |es|
  {
    if es != [] && es[0].key != key {
      RemoveSubset(es[1..], key);
      var r := Remove(es[1..], key);
      assert Remove(es, key) == [es[0]] + r;
      forall i | 0 <= i < |r| ensures r[i].key != es[0].key && r[i] in es {
        assert r[i] in es[1..];
      }
    }
  }

  lemma PutKeys(es: seq<Entry>, key: string, v: Node)
    requires UniqueKeys(es)
    ensures UniqueKeys(Put(es, key, v))
    ensures forall e | e in Put(es, key, v) :: e == Entry(key, v) || e in es
    ensures Put(es, key, v) != []
  {
    if es != [] {
      if es[0].key == key {
        assert forall e | e in es[1..] :: e in es;
      } else {
        PutKeys(es[1..], key, v);
        var r := Put(es[1..], key, v);
        forall i | 0 <= i < |r| ensures r[i].key != es[0].key {
          assert r[i] in r;
          if r[i] != Entry(key, v) {
            assert r[i] in es[1..];
          }
        }
      }
    }
  }

  lemma PutSame(es: seq<Entry>, key: string, v: Node)
    requires Lookup(es, key) == Some(v)
    ensures Put(es, key, v) == es
  {
    if es[0].key == key {
      assert [es[0]] + es[1..] == es;
    } else {
      PutSame(es[1..], key, v);
      assert [es[0]] + es[1..] == es;
    }
  }

  // ---- Set ---------------------------------------------------------------

  lemma {:induction false} GetSetSame(n: Node, p: Path, v: Node)
    ensures Get(Set(n, p, v), p) == Some(v)
    decreases |p|
  {
    if p != [] {
      var es := EntriesOf(n);
      var c := ChildOrNew(n, p[0]);
      LookupPut(es, p[0], Set(c, p[1..], v), p[0]);
      GetSetSame(c, p[1..], v);
    }
  }

  /** Storing at one path leaves every path it neither leads through nor to unchanged. */
  lemma {:induction false} GetSetOther(n: Node, p: Path, v: Node, q: Path)
    requires !Comparable(p, q)
    ensures Get(Set(n, p, v), q) == Get(n, q)
    decreases |p|
  {
    var es := EntriesOf(n);
    var c := ChildOrNew(n, p[0]);
    LookupPut(es, p[0], Set(c, p[1..], v), q[0]);
    if p[0] == q[0] {
      assert p == [p[0]] + p[1..] && q == [q[0]] + q[1..];
      assert !Comparable(p[1..], q[1..]);
      GetSetOther(c, p[1..], v, q[1..]);
      assert Get(Set(c, p[1..], v), q[1..]) == Get(c, q[1..]);
    }
  }

  /** A strict ancestor of a stored path is a non-empty mapping afterwards. */
  lemma {:induction false} GetSetAncestor(n: Node, p: Path, v: Node, q: Path)
    requires q < p
    ensures var r := Get(Set(n, p, v), q); r.Some? && r.value.Mapping? && r.value.entries != []
    decreases |p|
  {
    var es := EntriesOf(n);
    var c := ChildOrNew(n, p[0]);
    LookupPut(es, p[0], Set(c, p[1..], v), p[0]);
    if q == [] {
      assert Lookup(Put(es, p[0], Set(c, p[1..], v)), p[0]).Some?;
    } else {
      GetSetAncestor(c, p[1..], v, q[1..]);
    }
  }

  /** Below a stored path one finds what the stored value holds there. */
  lemma {:induction false} GetSetBelow(n: Node, p: Path, v: Node, q: Path)
    requires p <= q
    ensures Get(Set(n, p, v), q) == Get(v, q[|p|..])
    decreases |p|
  {
    if p != [] {
      var es := EntriesOf(n);
      var c := ChildOrNew(n, p[0]);
      LookupPut(es, p[0], Set(c, p[1..], v), p[0]);
      GetSetBelow(c, p[1..], v, q[1..]);
      assert q[1..][|p[1..]|..] == q[|p|..];
    } else {
      assert q[0..] == q;
    }
  }

  lemma {:induction false} SetPresent(n: Node, p: Path, v: Node)
    requires Get(n, p) == Some(v)
    ensures Set(n, p, v) == n
    decreases |p|
  {
    if p != [] {
      SetPresent(Child(n, p[0]).value, p[1..], v);
      PutSame(n.entries, p[0], Child(n, p[0]).value);
    }
  }

  lemma {:induction false} SetUnique(n: Node, p: Path, v: Node)
    requires Unique(n) && Unique(v)
    ensures Unique(Set(n, p, v))
    decreases |p|
  {
    if p != [] {
      var es := EntriesOf(n);
      var c := ChildOrNew(n, p[0]);
      LookupIsMember(es, p[0]);
      SetUnique(c, p[1..], v);
      PutUnique(es, p[0], Set(c, p[1..], v));
    }
  }

  lemma PutUnique(es: seq<Entry>, key: string, v: Node)
    requires Unique(Mapping(es)) && Unique(v)
    ensures Unique(Mapping(Put(es, key, v)))
  {
    PutKeys(es, key, v);
    var r := Put(es, key, v);
    forall i | 0 <= i < |r| ensures Unique(r[i].value) {
      assert r[i] in r;
    }
  }

  // ---- Get ---------------------------------------------------------------

  lemma {:induction false} GetSplit(n: Node, p: Path, q: Path)
    ensures Get(n, p + q) == match Get(n, p) case None => None case Some(c) => Get(c, q)
    decreases |p|
  {
    if p == [] {
      assert p + q == q;
    } else {
      assert (p + q)[1..] == p[1..] + q;
      match Child(n, p[0]) {
        case None =>
        case Some(c) => GetSplit(c, p[1..], q);
      }
    }
  }

  /** What lies below a value without entries is absent. */
  lemma GetBelowLeaf(n: Node, p: Path, q: Path)
    requires p < q
    requires Get(n, p).None? || !Get(n, p).value.Mapping? || Get(n, p).value == EMPTY_MAP
    ensures Get(n, q).None?
  {
    GetSplit(n, p, q[|p|..]);
    assert p + q[|p|..] == q;
    if Get(n, p).Some? {
      assert Child(Get(n, p).value, q[|p|]).None?;
    }
  }

  lemma {:induction false} GetUnique(n: Node, p: Path)
    requires Unique(n) && Get(n, p).Some?
    ensures Unique(Get(n, p).value)
    decreases |p|
  {
    if p != [] {
      LookupIsMember(n.entries, p[0]);
      GetUnique(Child(n, p[0]).value, p[1..]);
    }
  }

  // ---- Delete ------------------------------------------------------------

  lemma ChildUnique(n: Node, key: string)
    requires Unique(n) && Child(n, key).Some?
    ensures Unique(Child(n, key).value)
  {
    LookupIsMember(n.entries, key);
  }

  lemma {:induction false} DeleteUnique(n: Node, p: Path)
    requires p != [] && Unique(n)
    ensures Unique(Delete(n, p))
    decreases |p|
  {
    if Child(n, p[0]).Some? {
      RemoveSubset(n.entries, p[0]);
      if |p| > 1 {
        ChildUnique(n, p[0]);
        DeleteUnique(Child(n, p[0]).value, p[1..]);
        PutUnique(n.entries, p[0], Delete(Child(n, p[0]).value, p[1..]));
      }
    }
  }

  lemma DeleteAbsent(n: Node, p: Path)
    requires p != [] && Get(n, p).None?
    ensures Delete(n, p) == n
  {
  }

  lemma {:induction false} GetDeleteSame(n: Node, p: Path)
    requires p != [] && Unique(n)
    ensures Get(Delete(n, p), p).None?
    decreases |p|
  {
    match Child(n, p[0]) {
      case None =>
      case Some(c) =>
        LookupRemove(n.entries, p[0], p[0]);
        if |p| > 1 && Get(c, p[1..]).Some? {
          ChildUnique(n, p[0]);
          GetDeleteSame(c, p[1..]);
          LookupPut(n.entries, p[0], Delete(c, p[1..]), p[0]);
        }
    }
  }

  /** Pruning removes only ancestors the removal emptied, so no other path loses its value. */
  lemma {:induction false} GetDeleteOther(n: Node, p: Path, q: Path)
    requires Unique(n) && !Comparable(p, q)
    ensures Get(Delete(n, p), q) == Get(n, q)
    decreases |p|
  {
    match Child(n, p[0]) {
      case None =>
      case Some(c) =>
        LookupRemove(n.entries, p[0], q[0]);
        if p[0] != q[0] {
          if |p| > 1 { LookupPut(n.entries, p[0], Delete(c, p[1..]), q[0]); }
        } else {
          assert p == [p[0]] + p[1..] && q == [q[0]] + q[1..];
          assert !Comparable(p[1..], q[1..]);
          assert |p| > 1;
          if Get(c, p[1..]).Some? {
            ChildUnique(n, p[0]);
            GetDeleteOther(c, p[1..], q[1..]);
            LookupPut(n.entries, p[0], Delete(c, p[1..]), q[0]);
          }
        }
    }
  }

  /** A strict ancestor of a removed path is gone or still holds something. */
  lemma {:induction false} GetDeleteAncestor(n: Node, p: Path, q: Path)
    requires [] < q < p && Unique(n) && Get(n, p).Some?
    ensures var r := Get(Delete(n, p), q); r.None? || (r.value.Mapping? && r.value != EMPTY_MAP)
    decreases |p|
  {
    var c := Child(n, p[0]).value;
    assert p == [p[0]] + p[1..] && q == [p[0]] + q[1..];
    LookupRemove(n.entries, p[0], p[0]);
    LookupPut(n.entries, p[0], Delete(c, p[1..]), p[0]);
    if |q| > 1 {
      ChildUnique(n, p[0]);
      GetDeleteAncestor(c, p[1..], q[1..]);
    } else {
      assert Delete(c, p[1..]).Mapping?;
    }
  }

  /** Nothing survives below a removed path. */
  lemma GetDeleteBelow(n: Node, p: Path, q: Path)
    requires p != [] && p <= q && Unique(n)
    ensures Get(Delete(n, p), q).None?
  {
    GetDeleteSame(n, p);
    if |p| < |q| {
      GetBelowLeaf(Delete(n, p), p, q);
    } else {
      assert p == q;
    }
  }
}
