/**
 The layout rewrites as they run: loops over the path tables that update one tree of
 nodes in place.  Each is proved to compute the rewrite on documents it is named after,
 so the preservation theorems hold of it.

 Models CLIProxyAPI/internal/config/config_v8.go, flattenV8 and NormalizeConfigLayout.
 */
module LayoutRewriter {
  import opened Wrappers
  import opened YamlTree
  import opened KeyGroups
  import opened LayoutMigration
  import opened LayoutChanges
  import opened YamlNodes

  // ---- conversion ---------------------------------------------------------

  /** The document a node stands for. */
  method Read(n: YamlNode) returns (v: Node)
    requires n.Valid()
    ensures v == n.Tree
    decreases n.Repr
  {
    match n.kind {
      case ScalarNode => v := Scalar(n.tag, n.text);
      case SequenceNode =>
        var items: seq<Node> := [];
        for i := 0 to |n.content|
          invariant items == n.Tree.items[..i]
        {
          var item := Read(n.content[i]);
          items := items + [item];
        }
        v := Sequence(items);
      case MappingNode =>
        var es: seq<Entry> := [];
        for i := 0 to |n.content|
          invariant es == n.Tree.entries[..i]
        {
          var value := Read(n.content[i]);
          es := es + [Entry(n.keys[i], value)];
        }
        v := Mapping(es);
    }
  }

  /** Nodes for a list of documents. */
  method BuildAll(vs: seq<Node>) returns (ns: seq<YamlNode>, ghost repr: set<object>)
    ensures |ns| == |vs| && fresh(repr)
    ensures forall i | 0 <= i < |ns| :: ns[i].Valid() && ns[i].Repr <= repr && ns[i].Tree == vs[i]
    ensures forall i, j | 0 <= i < j < |ns| :: ns[i].Repr !! ns[j].Repr
    decreases vs, 1
  {
    ns, repr := [], {};
    for i := 0 to |vs|
      invariant |ns| == i && fresh(repr)
      invariant forall j | 0 <= j < i :: ns[j].Valid() && ns[j].Repr <= repr && ns[j].Tree == vs[j]
      invariant forall j, l | 0 <= j < l < i :: ns[j].Repr !! ns[l].Repr
    {
      var n := Build(vs[i]);
      ns, repr := ns + [n], repr + n.Repr;
    }
  }

  /** New nodes for a document. */
  method Build(v: Node) returns (n: YamlNode)
    ensures n.Valid() && fresh(n.Repr) && n.Tree == v
    decreases v, 0
  {
    if v.Scalar? {
      n := new YamlNode.NewScalar(v.tag, v.text);
    } else if v.Sequence? {
      var content, repr := BuildAll(v.items);
      n := new YamlNode.NewScalar("!!seq", "");
      n.kind, n.content := SequenceNode, content;
      Rebuild(n, {n} + repr, v);
    } else {
      n := BuildMapping(v.entries);
    }
  }

  method BuildMapping(es: seq<Entry>) returns (n: YamlNode)
    ensures n.Valid() && fresh(n.Repr) && n.Tree == Mapping(es)
    decreases es, 2
  {
    var keys: seq<string>, content: seq<YamlNode> := [], [];
    ghost var repr: set<object> := {};
    for i := 0 to |es|
      invariant |keys| == |content| == i && fresh(repr)
      invariant forall j | 0 <= j < i :: keys[j] == es[j].key
      invariant forall j | 0 <= j < i :: content[j].Valid() && content[j].Repr <= repr && content[j].Tree == es[j].value
      invariant forall j, l | 0 <= j < l < i :: content[j].Repr !! content[l].Repr
    {
      var c := Build(es[i].value);
      keys, content, repr := keys + [es[i].key], content + [c], repr + c.Repr;
    }
    n := new YamlNode.NewScalar("!!map", "");
    n.kind, n.keys, n.content := MappingNode, keys, content;
    Rebuild(n, {n} + repr, Mapping(es));
  }

  // ---- paths ----------------------------------------------------------------

  /** A copy of the value at a path that is present. */
  method CopyYamlPath(root: YamlNode, path: Path) returns (r: YamlNode)
    requires root.Valid() && Get(root.Tree, path).Some?
    ensures r.Valid() && fresh(r.Repr) && r.Tree == Get(root.Tree, path).value
  {
    var n := YamlPath(root, path);
    r := DeepCopy(n);
  }

  method Present(root: YamlNode, path: Path) returns (b: bool)
    requires root.Valid()
    ensures b <==> Get(root.Tree, path).Some?
  {
    var n := YamlPath(root, path);
    b := n != null;
  }

  /** Whether the legacy spelling is present; a v8 api-keys mapping is not the legacy list. */
  method LegacyPresent(root: YamlNode, path: Path) returns (b: bool)
    requires root.Valid()
    ensures b <==> LegacyGet(root.Tree, path).Some?
  {
    var n := YamlPath(root, path);
    b := n != null && !(path == API_KEYS && n.kind == MappingNode);
  }

  // ---- NormalizeConfigLayout --------------------------------------------------

  method MoveOne(root: YamlNode, m: Move, migrate: bool) returns (changed: bool)
    requires root.Valid() && m.legacy != []
    modifies root.Repr
    ensures root.Valid() && fresh(root.Repr - old(root.Repr))
    ensures root.Tree == StepMove(old(root.Tree), m, migrate)
    ensures changed <==> StepChanges(old(root.Tree), m, migrate)
  {
    var legacy := LegacyPresent(root, m.legacy);
    var current := Present(root, m.current);
    if !legacy || (!current && !migrate) { return false; }
    var copy := CopyYamlPath(root, m.legacy);
    var _ := DeleteYamlPath(root, m.legacy);
    if !current { SetYamlPath(root, m.current, copy); }
    changed := true;
  }

  method MoveAll(root: YamlNode, ms: seq<Move>, migrate: bool) returns (changed: bool)
    requires root.Valid() && forall m | m in ms :: m.legacy != []
    modifies root.Repr
    ensures root.Valid() && fresh(root.Repr - old(root.Repr))
    ensures root.Tree == RunMoves(old(root.Tree), ms, migrate)
    ensures changed <==> MovesChange(old(root.Tree), ms, migrate)
  {
    changed := false;
    for i := 0 to |ms|
      invariant root.Valid() && fresh(root.Repr - old(root.Repr))
      invariant RunMoves(root.Tree, ms[i..], migrate) == RunMoves(old(root.Tree), ms, migrate)
      invariant changed || MovesChange(root.Tree, ms[i..], migrate) <==> MovesChange(old(root.Tree), ms, migrate)
    {
      assert ms[i..][0] == ms[i] && ms[i..][1..] == ms[i + 1..];
      var moved := MoveOne(root, ms[i], migrate);
      changed := changed || moved;
    }
  }

  method IsHollow(root: YamlNode, path: Path) returns (b: bool)
    requires root.Valid()
    ensures b <==> Hollow(Get(root.Tree, path))
  {
    var n := YamlPath(root, path);
    b := n != null && ((n.kind == ScalarNode && n.tag == "!!null") || (n.kind == MappingNode && |n.content| == 0));
  }

  /** Makes a hollow container an empty mapping if it is to be moved. */
  method ReviveOne(root: YamlNode, c: Move, migrate: bool) returns (revived: bool)
    requires root.Valid()
    modifies root.Repr
    ensures root.Valid() && fresh(root.Repr - old(root.Repr))
    ensures revived <==> Revived(old(root.Tree), c, migrate)
    ensures root.Tree == if revived then Set(old(root.Tree), c.legacy, EMPTY_MAP) else old(root.Tree)
  {
    var hollow := IsHollow(root, c.legacy);
    var current := Present(root, c.current);
    revived := hollow && (migrate || current);
    if revived {
      var empty := new YamlNode.NewMapping();
      SetYamlPath(root, c.legacy, empty);
    }
  }

  predicate Revived(n: Node, c: Move, migrate: bool) {
    Hollow(Get(n, c.legacy)) && (migrate || Get(n, c.current).Some?)
  }

  /** One step of the revival. */
  lemma ReviveFirst(n: Node, cs: seq<Move>, migrate: bool)
    requires cs != [] && Revived(n, cs[0], migrate)
    ensures var next := ReviveContainers(Set(n, cs[0].legacy, EMPTY_MAP), cs[1..], migrate);
      ReviveContainers(n, cs, migrate) == (next.0, [cs[0]] + next.1)
  {
  }

  lemma SkipFirst(n: Node, cs: seq<Move>, migrate: bool)
    requires cs != [] && !Revived(n, cs[0], migrate)
    ensures ReviveContainers(n, cs, migrate) == ReviveContainers(n, cs[1..], migrate)
  {
  }

  /** What the revival gives when these containers are queued already. */
  function Queued(queued: seq<Move>, rest: (Node, seq<Move>)): (all: (Node, seq<Move>))
    ensures queued == [] ==> all == rest
    ensures rest.1 == [] ==> all == (rest.0, queued)
  {
    assert [] + rest.1 == rest.1 && queued + [] == queued;
    (rest.0, queued + rest.1)
  }

  /** The queue and the document after one step, whichever way it goes. */
  lemma ReviveStep(n: Node, cs: seq<Move>, i: nat, migrate: bool, queued: seq<Move>, all: (Node, seq<Move>))
    requires i < |cs| && Queued(queued, ReviveContainers(n, cs[i..], migrate)) == all
    ensures if Revived(n, cs[i], migrate)
      then Queued(queued + [cs[i]], ReviveContainers(Set(n, cs[i].legacy, EMPTY_MAP), cs[i + 1..], migrate)) == all
      else Queued(queued, ReviveContainers(n, cs[i + 1..], migrate)) == all
  {
    assert cs[i..][0] == cs[i] && cs[i..][1..] == cs[i + 1..];
    if Revived(n, cs[i], migrate) {
      ReviveFirst(n, cs[i..], migrate);
      var rest := ReviveContainers(Set(n, cs[i].legacy, EMPTY_MAP), cs[i + 1..], migrate).1;
      assert queued + ([cs[i]] + rest) == (queued + [cs[i]]) + rest;
    } else {
      SkipFirst(n, cs[i..], migrate);
    }
  }

  method ReviveAll(root: YamlNode, cs: seq<Move>, migrate: bool) returns (queued: seq<Move>)
    requires root.Valid()
    modifies root.Repr
    ensures root.Valid() && fresh(root.Repr - old(root.Repr))
    ensures (root.Tree, queued) == ReviveContainers(old(root.Tree), cs, migrate)
  {
    queued := [];
    ghost var all := ReviveContainers(root.Tree, cs, migrate);
    assert cs[0..] == cs && Queued([], all) == all;
    for i := 0 to |cs|
      invariant root.Valid() && fresh(root.Repr - old(root.Repr))
      invariant Queued(queued, ReviveContainers(root.Tree, cs[i..], migrate)) == all
    {
      ReviveStep(root.Tree, cs, i, migrate, queued, all);
      var revived := ReviveOne(root, cs[i], migrate);
      if revived { queued := queued + [cs[i]]; }
    }
    assert cs[|cs|..] == [];
  }

  method MoveFamily(root: YamlNode, t: Table, f: Family, migrate: bool) returns (changed: bool)
    requires root.Valid() && f.move.legacy != []
    modifies root.Repr
    ensures root.Valid() && fresh(root.Repr - old(root.Repr))
    ensures root.Tree == StepFamily(old(root.Tree), t, f, migrate)
    ensures changed <==> FamilyChanges(old(root.Tree), f, migrate)
  {
    var legacy := YamlPath(root, f.move.legacy);
    var current := Present(root, f.move.current);
    if legacy == null || (!current && !migrate) { return false; }
    changed := true;
    if !current {
      var keys := Read(legacy);
      var groups := Build(GroupLegacyKeys(t.shared, keys, f.provider));
      SetYamlPath(root, f.move.current, groups);
    }
    var _ := DeleteYamlPath(root, f.move.legacy);
  }

  method MoveFamilies(root: YamlNode, t: Table, migrate: bool) returns (changed: bool)
    requires root.Valid() && t.Paths()
    modifies root.Repr
    ensures root.Valid() && fresh(root.Repr - old(root.Repr))
    ensures root.Tree == RunFamilies(old(root.Tree), t, t.families, migrate)
    ensures changed <==> FamiliesChange(old(root.Tree), t, t.families, migrate)
  {
    var fs := t.families;
    changed := false;
    for i := 0 to |fs|
      invariant root.Valid() && fresh(root.Repr - old(root.Repr))
      invariant RunFamilies(root.Tree, t, fs[i..], migrate) == RunFamilies(old(root.Tree), t, fs, migrate)
      invariant changed || FamiliesChange(root.Tree, t, fs[i..], migrate) <==> FamiliesChange(old(root.Tree), t, fs, migrate)
    {
      assert fs[i..][0] == fs[i] && fs[i..][1..] == fs[i + 1..];
      var moved := MoveFamily(root, t, fs[i], migrate);
      changed := changed || moved;
    }
  }

  /** Drops unknown keys. */
  method DropUnknownKeys(root: YamlNode, known: map<Path, set<string>>)
    requires root.Valid()
    modifies root.Repr
    ensures root.Valid() && fresh(root.Repr - old(root.Repr))
    ensures root.Tree == DropUnknown(old(root.Tree), [], known)
  {
    var v := Read(root);
    var kept := Build(DropUnknown(v, [], known));
    Overwrite(root, kept);
  }

  method StampVersion(root: YamlNode)
    requires root.Valid()
    modifies root.Repr
    ensures root.Valid() && fresh(root.Repr - old(root.Repr))
    ensures root.Tree == Set(old(root.Tree), VERSION, VERSION_8)
  {
    var version := new YamlNode.NewScalar("!!int", "8");
    SetYamlPath(root, VERSION, version);
  }

  method MoveSettings(root: YamlNode, t: Table, migrate: bool) returns (changed: bool)
    requires root.Valid() && t.Paths()
    modifies root.Repr
    ensures root.Valid() && fresh(root.Repr - old(root.Repr))
    ensures root.Tree == Moved(old(root.Tree), t, migrate)
    ensures changed <==> SettingsChange(old(root.Tree), t, migrate)
  {
    var queued := ReviveAll(root, t.Containers(), migrate);
    var settings := MoveAll(root, t.Moves(), migrate);
    var containers := MoveAll(root, queued, migrate);
    changed := settings || containers;
  }

  method FinishMigration(root: YamlNode, known: map<Path, set<string>>)
    requires root.Valid()
    modifies root.Repr
    ensures root.Valid() && fresh(root.Repr - old(root.Repr))
    ensures root.Tree == Set(DropUnknown(old(root.Tree), [], known), VERSION, VERSION_8)
  {
    DropUnknownKeys(root, known);
    StampVersion(root);
  }

  method MoveEverything(root: YamlNode, t: Table, migrate: bool) returns (changed: bool)
    requires root.Valid() && t.Paths()
    modifies root.Repr
    ensures root.Valid() && fresh(root.Repr - old(root.Repr))
    ensures root.Tree == RunFamilies(Moved(old(root.Tree), t, migrate), t, t.families, migrate)
    ensures changed || migrate <==> Changes(old(root.Tree), t, migrate)
  {
    var settings := MoveSettings(root, t, migrate);
    var families := MoveFamilies(root, t, migrate);
    changed := settings || families;
  }

  /** Rewrites an accepted document in place, and says whether there was anything to rewrite. */
  method RewriteLayout(root: YamlNode, t: Table, migrate: bool) returns (changed: bool)
    requires root.Valid() && t.Paths()
    modifies root.Repr
    ensures root.Valid() && fresh(root.Repr - old(root.Repr))
    ensures root.Tree == Normalize(old(root.Tree), t, migrate)
    ensures changed <==> Changes(old(root.Tree), t, migrate)
  {
    changed := MoveEverything(root, t, migrate);
    if migrate {
      FinishMigration(root, t.known);
      changed := true;
    }
  }

  // ---- flattenV8 ----------------------------------------------------------------

  method AliasAll(root: YamlNode, ms: seq<Move>)
    requires root.Valid() && forall m | m in ms :: m.legacy != []
    modifies root.Repr
    ensures root.Valid() && fresh(root.Repr - old(root.Repr))
    ensures root.Tree == RunAliases(old(root.Tree), ms)
  {
    for i := 0 to |ms|
      invariant root.Valid() && fresh(root.Repr - old(root.Repr))
      invariant RunAliases(root.Tree, ms[i..]) == RunAliases(old(root.Tree), ms)
    {
      assert ms[i..][0] == ms[i] && ms[i..][1..] == ms[i + 1..];
      var legacy := Present(root, ms[i].legacy);
      if legacy {
        var current := Present(root, ms[i].current);
        if !current {
          var copy := CopyYamlPath(root, ms[i].legacy);
          SetYamlPath(root, ms[i].current, copy);
        }
        var _ := DeleteYamlPath(root, ms[i].legacy);
      }
    }
  }

  /** Resolves one historical container. */
  method SharedOne(root: YamlNode, c: Move) returns (error: Option<LayoutError>)
    requires root.Valid() && c.legacy != []
    modifies root.Repr
    ensures root.Valid() && fresh(root.Repr - old(root.Repr))
    ensures match StepShared(old(root.Tree), c)
      case Ok(v) => error.None? && root.Tree == v
      case Err(e) => error == Some(e)
  {
    var n := YamlPath(root, c.legacy);
    if n == null { return None; }
    if !(n.kind == ScalarNode && n.tag == "!!null") && n.kind != MappingNode {
      return Some(ContainerNotMapping(c.legacy));
    }
    var hollow := IsHollow(root, c.legacy);
    if !hollow { return None; }
    var current := Present(root, c.current);
    if !current {
      var empty := new YamlNode.NewMapping();
      SetYamlPath(root, c.current, empty);
    }
    var _ := DeleteYamlPath(root, c.legacy);
    return None;
  }

  method SharedAll(root: YamlNode, cs: seq<Move>) returns (error: Option<LayoutError>)
    requires root.Valid() && forall m | m in cs :: m.legacy != []
    modifies root.Repr
    ensures root.Valid() && fresh(root.Repr - old(root.Repr))
    ensures match RunShared(old(root.Tree), cs)
      case Ok(v) => error.None? && root.Tree == v
      case Err(e) => error == Some(e)
  {
    for i := 0 to |cs|
      invariant root.Valid() && fresh(root.Repr - old(root.Repr))
      invariant RunShared(root.Tree, cs[i..]) == RunShared(old(root.Tree), cs)
    {
      assert cs[i..][0] == cs[i] && cs[i..][1..] == cs[i + 1..];
      error := SharedOne(root, cs[i]);
      if error.Some? { return; }
    }
    return None;
  }

  method BackAll(root: YamlNode, ms: seq<Move>)
    requires root.Valid() && forall m | m in ms :: m.current != []
    modifies root.Repr
    ensures root.Valid() && fresh(root.Repr - old(root.Repr))
    ensures root.Tree == RunBack(old(root.Tree), ms)
  {
    for i := 0 to |ms|
      invariant root.Valid() && fresh(root.Repr - old(root.Repr))
      invariant RunBack(root.Tree, ms[i..]) == RunBack(old(root.Tree), ms)
    {
      assert ms[i..][0] == ms[i] && ms[i..][1..] == ms[i + 1..];
      var current := Present(root, ms[i].current);
      if current {
        var copy := CopyYamlPath(root, ms[i].current);
        var _ := DeleteYamlPath(root, ms[i].current);
        SetYamlPath(root, ms[i].legacy, copy);
      }
    }
  }

  /** Expands the groups of the first family. */
  method ExpandFamily(root: YamlNode, source: YamlNode, t: Table, f: Family, ghost fs: seq<Family>)
    returns (error: Option<LayoutError>)
    requires root.Valid() && source.Valid() && root.Repr !! source.Repr && fs != [] && fs[0] == f
    modifies root.Repr
    ensures root.Valid() && fresh(root.Repr - old(root.Repr))
    ensures error.None? ==>
      ExpandFamilies(root.Tree, source.Tree, t, fs[1..]) == ExpandFamilies(old(root.Tree), source.Tree, t, fs)
    ensures error.Some? ==> ExpandFamilies(old(root.Tree), source.Tree, t, fs) == Err(error.value)
  {
    var groups := YamlPath(source, f.move.current);
    if groups == null { return None; }
    var v := Read(groups);
    var keys := ExpandGroups(t.shared, v, f.provider, t.weightOk);
    if keys.Err? { return Some(BadGroups(keys.error)); }
    var built := Build(keys.value);
    SetYamlPath(root, f.move.legacy, built);
    return None;
  }

  method ExpandAllFamilies(root: YamlNode, source: YamlNode, t: Table) returns (error: Option<LayoutError>)
    requires root.Valid() && source.Valid() && root.Repr !! source.Repr
    modifies root.Repr
    ensures root.Valid() && fresh(root.Repr - old(root.Repr))
    ensures match ExpandFamilies(old(root.Tree), source.Tree, t, t.families)
      case Ok(v) => error.None? && root.Tree == v
      case Err(e) => error == Some(e)
  {
    var fs := t.families;
    for i := 0 to |fs|
      invariant root.Valid() && fresh(root.Repr - old(root.Repr)) && root.Repr !! source.Repr
      invariant source.Valid() && source.Tree == old(source.Tree)
      invariant ExpandFamilies(root.Tree, source.Tree, t, fs[i..]) == ExpandFamilies(old(root.Tree), source.Tree, t, fs)
    {
      assert fs[i..][0] == fs[i] && fs[i..][1..] == fs[i + 1..];
      error := ExpandFamily(root, source, t, fs[i], fs[i..]);
      if error.Some? { return; }
    }
    return None;
  }

  method VersionSupported(root: YamlNode) returns (b: bool)
    requires root.Valid()
    ensures b <==> VersionOk(root.Tree)
  {
    var version := YamlPath(root, VERSION);
    b := version == null || (version.kind == ScalarNode && version.tag == "!!int" && version.text == "8");
  }

  method DropKeys(root: YamlNode)
    requires root.Valid()
    modifies root.Repr
    ensures root.Valid() && fresh(root.Repr - old(root.Repr))
    ensures root.Tree == DropKeyMapping(old(root.Tree))
  {
    var keys := YamlPath(root, API_KEYS);
    if keys != null && keys.kind == MappingNode {
      var _ := DeleteYamlPath(root, API_KEYS);
    }
  }

  /** Resolves the historical spellings of the copy. */
  method PrepareCopy(root: YamlNode, t: Table) returns (error: Option<LayoutError>)
    requires root.Valid() && t.Paths()
    modifies root.Repr
    ensures root.Valid() && fresh(root.Repr - old(root.Repr))
    ensures match RunShared(RunAliases(old(root.Tree), t.aliases), t.sharedStructs)
      case Err(e) => error == Some(e)
      case Ok(v) =>
        if !VersionOk(v) then error == Some(UnsupportedVersion) else error.None? && root.Tree == DropKeyMapping(v)
  {
    AliasAll(root, t.aliases);
    error := SharedAll(root, t.sharedStructs);
    if error.Some? { return; }
    var supported := VersionSupported(root);
    if !supported { return Some(UnsupportedVersion); }
    DropKeys(root);
  }

  /** The rewriting part of the flattening, on the copy. */
  method FlattenCopy(root: YamlNode, source: YamlNode, t: Table) returns (error: Option<LayoutError>)
    requires root.Valid() && source.Valid() && root.Repr !! source.Repr && t.Paths()
    modifies root.Repr
    ensures root.Valid() && fresh(root.Repr - old(root.Repr))
    ensures match FlattenTree(old(root.Tree), source.Tree, t)
      case Ok(v) => error.None? && root.Tree == v
      case Err(e) => error == Some(e)
  {
    error := PrepareCopy(root, t);
    if error.Some? { return; }
    BackAll(root, t.fields);
    error := ExpandAllFamilies(root, source, t);
  }

  /** Flattening once the deprecated switch is resolved. */
  method FlattenTables(node: YamlNode, t: Table) returns (r: Result<YamlNode, LayoutError>)
    requires node.Valid() && t.Paths()
    ensures match Flatten(node.Tree, t)
      case Ok(v) => r.Ok? && r.value.Valid() && fresh(r.value.Repr) && r.value.Tree == v
      case Err(e) => r == Err(e)
  {
    if node.kind != MappingNode { return Err(NotMapping); }
    var doc := Read(node);
    if !Unique(doc) { return Err(DuplicateKeys); }
    if !ContainersOk(doc, t.Moves()) { return Err(ContainerNotMapping([])); }
    var root := DeepCopy(node);
    var failed := FlattenCopy(root, node, t);
    if failed.Some? { return Err(failed.value); }
    return Ok(root);
  }
}
