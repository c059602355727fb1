/**
 yaml.Node trees on the heap and the in-place operations of the layout rewrite.

 Models CLIProxyAPI/internal/config/config_v8.go, yamlPath, setYAMLPath and deleteYAMLPath,
 and CLIProxyAPI/internal/config/config_yaml.go, findMapKeyIndex, getOrCreateMapValue and
 deepCopyNode, on alias-free documents.  A mapping keeps its keys beside its values.
 */
module YamlNodes {
  import opened Wrappers
  import opened YamlTree

  datatype Kind = ScalarNode | MappingNode | SequenceNode

  class YamlNode {
    var kind: Kind
    var tag: string
    var text: string
    var keys: seq<string>
    var content: seq<YamlNode>

    ghost var Tree: Node         // the document this node stands for
    ghost var Repr: set<object>  // the nodes it consists of

    ghost predicate Valid()
      reads this, Repr
      ensures Valid() ==> this in Repr
      decreases Repr
    {
      && this in Repr
      && (forall i | 0 <= i < |content| ::
            content[i] in Repr && content[i].Repr <= Repr && this !in content[i].Repr && content[i].Valid())
      && (forall i, j | 0 <= i < j < |content| :: content[i].Repr !! content[j].Repr)
      && StandsFor(Tree)
    }

    /** The node's own fields and its children's documents make up the document. */
    ghost predicate StandsFor(t: Node)
      reads this, content
    {
      match kind
      case ScalarNode => t == Scalar(tag, text)
      case SequenceNode =>
        t.Sequence? && |t.items| == |content| && forall i | 0 <= i < |content| :: t.items[i] == content[i].Tree
      case MappingNode =>
        t.Mapping? && |t.entries| == |content| == |keys|
        && forall i | 0 <= i < |content| :: t.entries[i] == Entry(keys[i], content[i].Tree)
    }

    constructor NewScalar(tag: string, text: string)
      ensures Valid() && fresh(Repr) && Tree == Scalar(tag, text)
      ensures this.tag == tag && this.text == text && Repr == {this}
    {
      this.kind, this.tag, this.text := ScalarNode, tag, text;
      keys, content := [], [];
      Tree := Scalar(tag, text);
      Repr := {this};
    }

    constructor NewMapping()
      ensures Valid() && fresh(Repr) && Tree == EMPTY_MAP
    {
      kind, tag, text := MappingNode, "!!map", "";
      keys, content := [], [];
      Tree := EMPTY_MAP;
      Repr := {this};
    }

    /** Index of the first entry with the key, or -1. */
    method FindMapKeyIndex(key: string) returns (idx: int)
      requires Valid()
      ensures -1 <= idx < |content|
      ensures idx < 0 <==> Child(Tree, key).None?
      ensures idx >= 0 ==> Tree.Mapping? && FirstIndex(Tree.entries, key, idx) && Child(Tree, key) == Some(content[idx].Tree)
    {
      if kind != MappingNode { return -1; }
      var i := 0;
      while i < |content|
        invariant 0 <= i <= |content|
        invariant forall j | 0 <= j < i :: Tree.entries[j].key != key
      {
        if keys[i] == key {
          AtFirstIndex(Tree.entries, key, i);
          return i;
        }
        i := i + 1;
      }
      LookupIsMember(Tree.entries, key);
      return -1;
    }
  }

  ghost predicate FirstIndex(es: seq<Entry>, key: string, idx: int) {
    0 <= idx < |es| && es[idx].key == key && forall j | 0 <= j < idx :: es[j].key != key
  }

  /** What the list operations do, by position. */
  lemma AtFirstIndex(es: seq<Entry>, key: string, idx: int)
    requires FirstIndex(es, key, idx)
    ensures Lookup(es, key) == Some(es[idx].value)
    ensures Remove(es, key) == es[..idx] + es[idx + 1..]
  {
    if idx > 0 {
      AtFirstIndex(es[1..], key, idx - 1);
      assert [es[0]] + (es[1..][..idx - 1] + es[1..][idx..]) == es[..idx] + es[idx + 1..];
    }
  }

  lemma PutAtFirst(es: seq<Entry>, key: string, idx: int, v: Node)
    requires FirstIndex(es, key, idx)
    ensures Put(es, key, v) == es[idx := Entry(key, v)]
  {
    if idx > 0 {
      PutAtFirst(es[1..], key, idx - 1, v);
      assert [es[0]] + es[1..][idx - 1 := Entry(key, v)] == es[idx := Entry(key, v)];
    } else {
      assert [Entry(key, v)] + es[1..] == es[0 := Entry(key, v)];
    }
  }

  lemma PutMissing(es: seq<Entry>, key: string, v: Node)
    requires Lookup(es, key).None?
    ensures Put(es, key, v) == es + [Entry(key, v)]
    ensures FirstIndex(es + [Entry(key, v)], key, |es|)
  {
    LookupIsMember(es, key);
    if es != [] {
      PutMissing(es[1..], key, v);
      assert [es[0]] + (es[1..] + [Entry(key, v)]) == es + [Entry(key, v)];
    }
  }

  /** The value node at the path, or null. */
  method YamlPath(root: YamlNode, path: Path) returns (r: YamlNode?)
    requires root.Valid()
    ensures r == null <==> Get(root.Tree, path).None?
    ensures r != null ==> r in root.Repr && r.Valid() && r.Repr <= root.Repr && Get(root.Tree, path) == Some(r.Tree)
  {
    var n := root;
    for k := 0 to |path|
      invariant n in root.Repr && n.Valid() && n.Repr <= root.Repr
      invariant Get(root.Tree, path) == Get(n.Tree, path[k..])
    {
      var idx := n.FindMapKeyIndex(path[k]);
      assert path[k..][0] == path[k] && path[k..][1..] == path[k + 1..];
      if idx < 0 { return null; }
      n := n.content[idx];
    }
    return n;
  }

  /** A structurally equal tree of new nodes. */
  method DeepCopy(n: YamlNode) returns (r: YamlNode)
    requires n.Valid()
    ensures r.Valid() && fresh(r.Repr) && r.Tree == n.Tree
    decreases n.Repr
  {
    var copies: seq<YamlNode> := [];
    ghost var repr: set<object> := {};
    for i := 0 to |n.content|
      invariant |copies| == i && fresh(repr)
      invariant forall j | 0 <= j < i :: copies[j].Valid() && copies[j].Repr <= repr && copies[j].Tree == n.content[j].Tree
      invariant forall j, l | 0 <= j < l < i :: copies[j].Repr !! copies[l].Repr
    {
      var c := DeepCopy(n.content[i]);
      copies := copies + [c];
      repr := repr + c.Repr;
    }
    r := new YamlNode.NewScalar(n.tag, n.text);
    r.kind, r.keys, r.content := n.kind, n.keys, copies;
    Rebuild(r, {r} + repr, n.Tree);
  }

  /** Records the document and the nodes of a node whose fields were just assigned. */
  ghost method Rebuild(n: YamlNode, repr: set<object>, tree: Node)
    requires n in repr && n.StandsFor(tree)
    requires forall i | 0 <= i < |n.content| :: n.content[i].Valid() && n.content[i].Repr <= repr && n !in n.content[i].Repr
    requires forall i, j | 0 <= i < j < |n.content| :: n.content[i].Repr !! n.content[j].Repr
    modifies n`Repr, n`Tree
    ensures n.Valid() && n.Repr == repr && n.Tree == tree
  {
    n.Repr, n.Tree := repr, tree;
  }

  /** Appends a key with a blank scalar. */
  method AppendEntry(n: YamlNode, key: string)
    requires n.Valid() && n.kind == MappingNode
    modifies n
    ensures n.Valid() && fresh(n.Repr - old(n.Repr)) && n.kind == MappingNode
    ensures n.Tree == Mapping(old(n.Tree.entries) + [Entry(key, EMPTY_STRING)])
  {
    var v := new YamlNode.NewScalar("!!str", "");
    n.keys, n.content := n.keys + [key], n.content + [v];
    Rebuild(n, n.Repr + v.Repr, Mapping(n.Tree.entries + [Entry(key, v.Tree)]));
  }

  /** The key is missing: it gets a blank scalar, and stands last. */
  method AppendMissing(n: YamlNode, key: string) returns (idx: int)
    requires n.Valid() && n.kind == MappingNode && Lookup(n.Tree.entries, key).None?
    modifies n
    ensures n.Valid() && fresh(n.Repr - old(n.Repr)) && n.kind == MappingNode
    ensures n.Tree == Mapping(Put(old(n.Tree.entries), key, EMPTY_STRING))
    ensures 0 <= idx < |n.content| && FirstIndex(n.Tree.entries, key, idx) && n.content[idx].Tree == EMPTY_STRING
  {
    PutMissing(n.Tree.entries, key, EMPTY_STRING);
    AppendEntry(n, key);
    idx := |n.content| - 1;
    assert n.content[idx].Tree == n.Tree.entries[idx].value;
  }

  /** Empties a node that is no mapping into one. */
  method EnsureMapping(n: YamlNode)
    requires n.Valid()
    modifies n
    ensures n.Valid() && n.Repr == old(n.Repr) && n.kind == MappingNode
    ensures n.Tree == Mapping(old(EntriesOf(n.Tree)))
  {
    if n.kind != MappingNode {
      n.kind, n.tag, n.keys, n.content := MappingNode, "!!map", [], [];
      Rebuild(n, n.Repr, EMPTY_MAP);
    }
  }

  /** The value node of the key; a node that is no mapping is emptied, a missing key appended. */
  method GetOrCreateMapValue(n: YamlNode, key: string) returns (idx: int)
    requires n.Valid()
    modifies n
    ensures n.Valid() && fresh(n.Repr - old(n.Repr)) && n.kind == MappingNode
    ensures 0 <= idx < |n.content| && FirstIndex(n.Tree.entries, key, idx)
    ensures n.Tree == Mapping(Put(old(EntriesOf(n.Tree)), key, old(ChildOrNew(n.Tree, key))))
    ensures n.content[idx].Tree == old(ChildOrNew(n.Tree, key))
  {
    EnsureMapping(n);
    idx := n.FindMapKeyIndex(key);
    if idx >= 0 {
      PutSame(n.Tree.entries, key, n.content[idx].Tree);
    } else {
      idx := AppendMissing(n, key);
    }
  }

  /** Gives a node the contents of a copy of another one. */
  method Overwrite(dst: YamlNode, value: YamlNode)
    requires value.Valid() && dst !in value.Repr
    modifies dst
    ensures dst.Valid() && fresh(dst.Repr - {dst}) && dst.Tree == value.Tree
  {
    var copy := DeepCopy(value);
    ghost var repr := copy.Repr - {copy};
    assert forall i | 0 <= i < |copy.content| :: copy.content[i].Repr <= repr;
    dst.kind, dst.tag, dst.text, dst.keys, dst.content := copy.kind, copy.tag, copy.text, copy.keys, copy.content;
    Rebuild(dst, {dst} + repr, copy.Tree);
  }

  lemma PutTwice(es: seq<Entry>, key: string, v: Node, w: Node)
    ensures Put(Put(es, key, v), key, w) == Put(es, key, w)
  {
  }

  /** The node is valid except that the child at idx may have changed since es was its document. */
  ghost predicate ValidButFor(n: YamlNode, idx: int, es: seq<Entry>)
    reads n, n.content, set c, o | c in n.content && o in c.Repr :: o
  {
    && n.kind == MappingNode && |es| == |n.keys| == |n.content| && 0 <= idx < |n.content| && es[idx].key == n.keys[idx]
    && n in n.Repr
    && (forall i | 0 <= i < |n.content| :: n !in n.content[i].Repr && n.content[i].Valid())
    && (forall i | 0 <= i < |n.content| && i != idx :: n.content[i].Repr <= n.Repr && es[i] == Entry(n.keys[i], n.content[i].Tree))
    && (forall i, j | 0 <= i < j < |n.content| :: n.content[i].Repr !! n.content[j].Repr)
  }

  /** Brings the ghost state of a mapping up to date with one changed child. */
  ghost method Refresh(n: YamlNode, idx: int, es: seq<Entry>)
    requires ValidButFor(n, idx, es)
    modifies n`Repr, n`Tree
    ensures n.Valid() && n.Repr == old(n.Repr) + n.content[idx].Repr
    ensures n.Tree == Mapping(es[idx := Entry(es[idx].key, n.content[idx].Tree)])
  {
    n.Repr := n.Repr + n.content[idx].Repr;
    n.Tree := Mapping(es[idx := Entry(es[idx].key, n.content[idx].Tree)]);
    forall i | 0 <= i < |n.content| ensures n.content[i] in n.Repr {
      assert n.content[i].Valid();
    }
  }

  /** Stores a copy of the value at the rest of a path inside one child. */
  method SetInChild(n: YamlNode, idx: int, rest: Path, value: YamlNode)
    requires n.Valid() && n.kind == MappingNode && 0 <= idx < |n.content|
    requires value.Valid() && n.Repr !! value.Repr
    modifies n.Repr
    ensures n.Valid() && fresh(n.Repr - old(n.Repr))
    ensures var e := old(n.Tree.entries[idx]);
      n.Tree == Mapping(old(n.Tree.entries)[idx := Entry(e.key, Set(e.value, rest, value.Tree))])
    decreases |rest|, 1
  {
    ghost var es := n.Tree.entries;
    SetYamlPath(n.content[idx], rest, value);
    forall i | 0 <= i < |n.content| && i != idx
      ensures n.content[i].Valid() && n.content[i].Repr == old(n.content[i].Repr) && n.content[i].Tree == old(n.content[i].Tree)
    {
      assert old(n.content[i].Valid());
      assert n.content[i].Repr !! old(n.content[idx].Repr);
    }
    Refresh(n, idx, es);
  }

  /** Stores a copy of the value at the path, creating the mappings on the way. */
  method SetYamlPath(n: YamlNode, path: Path, value: YamlNode)
    requires n.Valid() && value.Valid() && n.Repr !! value.Repr
    modifies n.Repr
    ensures n.Valid() && fresh(n.Repr - old(n.Repr))
    ensures n.Tree == Set(old(n.Tree), path, value.Tree)
    decreases |path|, 0
  {
    if path == [] {
      Overwrite(n, value);
      return;
    }
    ghost var before := n.Tree;
    var idx := GetOrCreateMapValue(n, path[0]);
    ghost var v := Set(ChildOrNew(before, path[0]), path[1..], value.Tree);
    PutAtFirst(n.Tree.entries, path[0], idx, v);
    PutTwice(EntriesOf(before), path[0], ChildOrNew(before, path[0]), v);
    SetInChild(n, idx, path[1..], value);
  }

  /** Removes a path inside one child. */
  method DeleteInChild(n: YamlNode, idx: int, rest: Path) returns (found: bool)
    requires n.Valid() && n.kind == MappingNode && 0 <= idx < |n.content| && rest != []
    modifies n.Repr
    ensures n.Valid() && n.Repr <= old(n.Repr) && n.kind == MappingNode && n.content == old(n.content)
    ensures found <==> Get(old(n.Tree.entries[idx].value), rest).Some?
    ensures var e := old(n.Tree.entries[idx]);
      n.Tree == Mapping(old(n.Tree.entries)[idx := Entry(e.key, Delete(e.value, rest))])
    decreases |rest|, 1
  {
    ghost var es := n.Tree.entries;
    found := DeleteYamlPath(n.content[idx], rest);
    forall i | 0 <= i < |n.content| && i != idx
      ensures n.content[i].Valid() && n.content[i].Repr == old(n.content[i].Repr) && n.content[i].Tree == old(n.content[i].Tree)
    {
      assert old(n.content[i].Valid());
      assert n.content[i].Repr !! old(n.content[idx].Repr);
    }
    Refresh(n, idx, es);
  }

  /** Drops one entry of a mapping. */
  method RemoveEntry(n: YamlNode, idx: int)
    requires n.Valid() && n.kind == MappingNode && 0 <= idx < |n.content|
    modifies n
    ensures n.Valid() && n.Repr == old(n.Repr)
    ensures n.Tree == Mapping(old(n.Tree.entries)[..idx] + old(n.Tree.entries)[idx + 1..])
  {
    n.keys := n.keys[..idx] + n.keys[idx + 1..];
    n.content := n.content[..idx] + n.content[idx + 1..];
    Rebuild(n, n.Repr, Mapping(n.Tree.entries[..idx] + n.Tree.entries[idx + 1..]));
  }

  /** Removes the value at the path and every ancestor mapping that becomes empty. */
  method DeleteYamlPath(n: YamlNode, path: Path) returns (found: bool)
    requires n.Valid() && path != []
    modifies n.Repr
    ensures n.Valid() && n.Repr <= old(n.Repr)
    ensures found <==> old(Get(n.Tree, path)).Some?
    ensures n.Tree == Delete(old(n.Tree), path)
    decreases |path|, 0
  {
    var idx := n.FindMapKeyIndex(path[0]);
    if idx < 0 { return false; }
    ghost var es := n.Tree.entries;
    AtFirstIndex(es, path[0], idx);
    if |path| > 1 {
      ghost var rest := Delete(es[idx].value, path[1..]);
      PutAtFirst(es, path[0], idx, rest);
      found := DeleteInChild(n, idx, path[1..]);
      if !found {
        DeleteAbsent(es[idx].value, path[1..]);
        assert es[idx := es[idx]] == es;
        return;
      }
      if |n.content[idx].content| != 0 { return; }
      assert n.content[idx].Tree == n.Tree.entries[idx].value == rest;
      assert rest == EMPTY_MAP;
      assert es[idx := Entry(path[0], rest)][..idx] == es[..idx];
      assert es[idx := Entry(path[0], rest)][idx + 1..] == es[idx + 1..];
    }
    RemoveEntry(n, idx);
    return true;
  }
}
