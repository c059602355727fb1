/**
 Flattening and normalising a parsed document as they run: aliases and merge keys are expanded,
 the deprecated switch is resolved, then the tables are applied.  Both are proved to compute the
 functions on documents they are named after.

 Models CLIProxyAPI/internal/config/config_v8.go, flattenV8, NormalizeConfigLayout and
 normalizeV8PrivateIPAlias.
 */
module DocumentRewriter {
  import opened Wrappers
  import opened YamlTree
  import opened LayoutMigration
  import opened LayoutChanges
  import opened MigrationTheorems
  import opened YamlNodes
  import opened LayoutRewriter
  import opened PrivateIps
  import opened AliasExpansion
  import opened AliasedDocuments

  // ---- the deprecated switch -----------------------------------------------------

  /** Resolves allow-private-remote-ips in place, and says whether there was anything to resolve. */
  method NormalizePrivateIps(root: YamlNode, migrate: bool, decode: Decoder)
    returns (changed: bool, error: Option<LayoutError>)
    requires root.Valid()
    modifies root.Repr
    ensures root.Valid() && fresh(root.Repr - old(root.Repr))
    ensures match ResolveAllow(old(root.Tree), migrate, decode)
      case Ok(v) => error.None? && root.Tree == v && (changed <==> ResolveChanges(old(root.Tree), migrate))
      case Err(e) => error == Some(e) && root.Tree == old(root.Tree)
  {
    changed, error := false, None;
    var value := YamlPath(root, ALLOW);
    if value == null { return; }
    var current := Present(root, V8_DISABLE);
    if current {
      changed := DeleteYamlPath(root, ALLOW);
      return;
    }
    var canonical := Present(root, DISABLE);
    if !migrate || canonical { return; }
    var v := Read(value);
    var allow := decode(v);
    if allow.None? { return false, Some(BadAllowFlag); }
    ReplaceAllow(root, Flag(!allow.value));
    changed := true;
  }

  method ReplaceAllow(root: YamlNode, flag: Node)
    requires root.Valid() && flag.Scalar?
    modifies root.Repr
    ensures root.Valid() && fresh(root.Repr - old(root.Repr))
    ensures root.Tree == Delete(Set(old(root.Tree), DISABLE, flag), ALLOW)
  {
    var replacement := new YamlNode.NewScalar(flag.tag, flag.text);
    SetYamlPath(root, DISABLE, replacement);
    var _ := DeleteYamlPath(root, ALLOW);
  }

  // ---- whole documents -------------------------------------------------------------

  /** Decoding a parsed document first rejects what is no mapping and what spells a key twice. */
  function FlattenParsed(s: Store, ghost rank: Rank, root: Id, t: Table, decode: Decoder): Result<Node, LayoutError>
    requires Acyclic(s, rank) && root in s && t.Paths()
  {
    if !s[root].MapRec? then Err(NotMapping)
    else if !DistinctKeys(s) then Err(DuplicateKeys)
    else FlattenDocument(Document(s, rank, root), t, decode)
  }

  function NormalizeParsed(s: Store, ghost rank: Rank, root: Id, t: Table, migrate: bool, decode: Decoder)
    : Result<Node, LayoutError>
    requires Acyclic(s, rank) && root in s && t.Paths()
  {
    var flat := FlattenParsed(s, rank, root, t, decode);
    if flat.Err? then Err(flat.error) else NormalizeDocument(Document(s, rank, root), t, migrate, decode)
  }

  /** Aliases and merge keys expanded, as new nodes. */
  method ExpandedTree(s: Store, ghost rank: Rank, root: Id) returns (n: YamlNode)
    requires Acyclic(s, rank) && root in s
    ensures n.Valid() && fresh(n.Repr) && n.Tree == Document(s, rank, root)
  {
    var expanded := ExpandConfigAliases(s, rank, root);
    n := Build(ToNode(expanded));
  }

  /** The flattened document as a new tree. */
  method FlattenV8(s: Store, ghost rank: Rank, root: Id, t: Table, decode: Decoder) returns (r: Result<YamlNode, LayoutError>)
    requires Acyclic(s, rank) && root in s && t.Paths()
    ensures match FlattenParsed(s, rank, root, t, decode)
      case Ok(v) => r.Ok? && r.value.Valid() && fresh(r.value.Repr) && r.value.Tree == v
      case Err(e) => r == Err(e)
  {
    if !s[root].MapRec? { return Err(NotMapping); }
    if !DistinctKeys(s) { return Err(DuplicateKeys); }
    DocumentUnique(s, rank, root);
    var node := ExpandedTree(s, rank, root);
    var _, failed := NormalizePrivateIps(node, true, decode);
    if failed.Some? { return Err(failed.value); }
    r := FlattenTables(node, t);
  }

  /** The rewrite of an expanded tree in place. */
  method RewriteExpanded(root: YamlNode, t: Table, migrate: bool, decode: Decoder)
    returns (changed: bool, error: Option<LayoutError>)
    requires root.Valid() && t.Paths()
    modifies root.Repr
    ensures root.Valid() && fresh(root.Repr - old(root.Repr))
    ensures match ResolveAllow(old(root.Tree), migrate, decode)
      case Ok(m) => error.None? && root.Tree == Normalize(m, t, migrate) &&
                    (changed <==> DocumentChanges(old(root.Tree), t, migrate, decode))
      case Err(e) => error == Some(e) && root.Tree == old(root.Tree)
  {
    changed, error := NormalizePrivateIps(root, migrate, decode);
    if error.None? {
      var moved := RewriteLayout(root, t, migrate);
      changed := changed || moved;
    }
  }

  /**
   A document the runtime would reject gives its error.  Any other gives its rewritten expansion, or
   nothing if there is nothing to rewrite; on load that is exactly if the expansion stays the same.
   */
  method NormalizeConfigLayout(s: Store, ghost rank: Rank, root: Id, t: Table, migrate: bool, decode: Decoder)
    returns (r: Result<Option<YamlNode>, LayoutError>)
    requires Acyclic(s, rank) && root in s && t.Paths()
    ensures match NormalizeParsed(s, rank, root, t, migrate, decode)
      case Ok(v) => r.Ok? && (r.value.Some? <==> DocumentChanges(Document(s, rank, root), t, migrate, decode)) &&
                    (r.value.Some? ==> r.value.value.Valid() && fresh(r.value.value.Repr) && r.value.value.Tree == v)
      case Err(e) => r == Err(e)
    ensures Separated(t) && !migrate && r.Ok? ==>
      (r.value.None? <==> NormalizeParsed(s, rank, root, t, migrate, decode).value == Document(s, rank, root))
  {
    var flat := FlattenV8(s, rank, root, t, decode);
    if flat.Err? { return Err(flat.error); }
    var node := ExpandedTree(s, rank, root);
    var changed, error := RewriteExpanded(node, t, migrate, decode);
    if error.Some? { return Err(error.value); }
    if changed { r := Ok(Some(node)); } else { r := Ok(None); }
    FlagMeans(Document(s, rank, root), t, migrate, decode);
  }

  lemma FlagMeans(n: Node, t: Table, migrate: bool, decode: Decoder)
    requires t.Paths() && NormalizeDocument(n, t, migrate, decode).Ok?
    ensures Separated(t) && !migrate ==>
      (DocumentChanges(n, t, migrate, decode) <==> NormalizeDocument(n, t, migrate, decode).value != n)
  {
    if Separated(t) && !migrate { ChangedExactly(n, t, decode); }
  }
}
