/**
 Merging a freshly rendered configuration into the user's document.

 Models CLIProxyAPI/internal/config/config_yaml.go, mergeMappingPreserve, mergeNodePreserve,
 reorderSequenceForMerge, matchSequenceElement, pruneKnownDefaultsInNewNode,
 pruneMissingMapKeys and isKnownDefaultValue, on alias-free documents.
 */
module YamlMerge {
  import opened Wrappers
  import opened YamlTree
  import opened Text

  const PPROF_ADDR := "127.0.0.1:8316"
  const PANEL_REPOSITORY := "https://github.com/router-for-me/Cli-Proxy-API-Management-Center"
  const SESSION_DATE_PIN_DAYS := "7"

  /** The path-dependent choices of the merge. */
  datatype Policy = Policy(
    knownDefault: (Path, Node) -> bool,  // not written to the file as a new key
    pluginConfigs: Path -> bool,         // replaced as a whole elsewhere
    pluginSubtree: Path -> bool,         // never pruned
    prunesNested: Path -> bool)          // stale keys are removed

  const CONFIG_POLICY: Policy := Policy(KnownDefault, PluginConfigs, PluginConfigsSubtree, PrunesNested)

  // ---- defaults -------------------------------------------------------------

  predicate PluginConfigs(path: Path) {
    path == ["plugins", "configs"]
  }

  predicate PluginConfigsSubtree(path: Path) {
    ["plugins", "configs"] <= path
  }

  /** A zero value by kind; collections are zero when all they hold is. */
  predicate IsZero(n: Node) {
    match n
    case Sequence(items) => forall i | 0 <= i < |items| :: IsZero(items[i])
    case Mapping(es) => forall i | 0 <= i < |es| :: IsZero(es[i].value)
    case Scalar(tag, text) =>
      if tag == "!!bool" then text == "false"
      else if tag == "!!int" || tag == "!!float" then text == "0" || text == "0.0"
      else if tag == "!!str" then text == ""
      else tag == "!!null"
  }

  /** Values whose presence means something although they look like defaults. */
  predicate ExplicitlyKept(path: Path, n: Node) {
    || PluginConfigsSubtree(path)
    || (path == ["plugins"] && Child(n, "configs").Some? && Child(n, "configs").value.Mapping?
        && Child(n, "configs").value.entries != [])
    || (path != [] && n.Scalar? && n.tag == "!!int" && path[|path| - 1] in {"weight", "request-retry"})
    || (path != [] && n == Scalar("!!int", "0") && path[|path| - 1] == "session-date-pin-days")
    || (path != [] && n.Scalar? && n.tag == "!!bool" && path[|path| - 1] in {"cache-user-id", "disable-cooling"})
    || Child(n, "session-date-pin-days").Some?
  }

  predicate NamedDefault(path: Path, n: Node) {
    n.Scalar? && (
      || (n.tag == "!!str" && path == ["pprof", "addr"] && n.text == PPROF_ADDR)
      || (n.tag == "!!str" && path == ["remote-management", "panel-github-repository"] && n.text == PANEL_REPOSITORY)
      || (n.tag == "!!str" && path == ["plugins", "dir"] && n.text == "plugins")
      || (n.tag == "!!str" && path == ["routing", "strategy"] && n.text == "round-robin")
      || (n.tag == "!!int" && path == ["error-logs-max-files"] && n.text == "10")
      || (n.tag == "!!int" && path == ["claude", "session-date-pin-days"] && n.text == SESSION_DATE_PIN_DAYS))
  }

  /** A value that is not written to the file as a new key. */
  predicate KnownDefault(path: Path, n: Node) {
    !ExplicitlyKept(path, n) && (IsZero(n) || NamedDefault(path, n))
  }

  predicate EmptyCollection(n: Node) {
    (n.Mapping? && n.entries == []) || (n.Sequence? && n.items == [])
  }

  /** A new node without its default-valued descendants. */
  function PruneNew(p: Policy, path: Path, n: Node): Node
    decreases n, 1
  {
    if p.pluginSubtree(path) then n
    else
      match n
      case Scalar(_, _) => n
      case Sequence(items) => Sequence(seq(|items|, i requires 0 <= i < |items| => PruneNew(p, path, items[i])))
      case Mapping(es) => Mapping(PruneNewEntries(p, path, es))
  }

  function PruneNewEntries(p: Policy, path: Path, es: seq<Entry>): seq<Entry>
    decreases es, 0
  {
    if es == [] then []
    else
      var rest := PruneNewEntries(p, path, es[1..]);
      var child := path + [es[0].key];
      if p.knownDefault(child, es[0].value) then rest
      else
        var v := PruneNew(p, child, es[0].value);
        if EmptyCollection(v) then rest else [Entry(es[0].key, v)] + rest
  }

  /** What a key missing from the destination may be left out for. */
  predicate Elidable(p: Policy, path: Path, v: Node) {
    p.knownDefault(path, v) || p.knownDefault(path, PruneNew(p, path, v)) || EmptyCollection(PruneNew(p, path, v))
  }

  // ---- stale keys -------------------------------------------------------------

  /** Keys are compared trimmed, and a blank key is never kept. */
  predicate Kept(src: seq<Entry>, key: string) {
    Trim(key) != "" && exists i :: 0 <= i < |src| && Trim(src[i].key) == Trim(key)
  }

  function PruneMissing(es: seq<Entry>, src: seq<Entry>): seq<Entry> {
    if es == [] then []
    else (if Kept(src, es[0].key) then [es[0]] else []) + PruneMissing(es[1..], src)
  }

  /** Mappings nested in credentials whose stale keys are removed. */
  predicate PrunesNested(path: Path) {
    |path| >= 2 &&
    var parent, last := path[|path| - 2], path[|path| - 1];
    || (parent == "claude-api-key" && (last == "cloak" || last == "headers"))
    || (parent in {"codex-api-key", "gemini-api-key", "interactions-api-key", "xai-api-key", "meta-api-key",
                   "vertex-api-key", "openai-compatibility"} && last == "headers")
  }

  // ---- matching sequence elements ---------------------------------------------

  const IDENTITY_KEYS: seq<string> :=
    ["id", "name", "alias", "api-key", "api_key", "apikey", "key", "provider", "model"]

  /** Trimmed value of the first scalar entry whose key matches without regard to case. */
  function ScalarValue(es: seq<Entry>, key: string): string {
    if es == [] then ""
    else if es[0].value.Scalar? && Lower(Trim(es[0].key)) == Lower(key) then Trim(es[0].value.text)
    else ScalarValue(es[1..], key)
  }

  function NamedIdentity(es: seq<Entry>, keys: seq<string>): string {
    if keys == [] then ""
    else if ScalarValue(es, keys[0]) != "" then keys[0] + "=" + ScalarValue(es, keys[0])
    else NamedIdentity(es, keys[1..])
  }

  function FirstScalarIdentity(es: seq<Entry>): string {
    if es == [] then ""
    else if es[0].value.Scalar? && Trim(es[0].value.text) != "" then
      Lower(Trim(es[0].key)) + "=" + Trim(es[0].value.text)
    else FirstScalarIdentity(es[1..])
  }

  function Identity(es: seq<Entry>): string {
    var named := NamedIdentity(es, IDENTITY_KEYS);
    if named != "" then named else FirstScalarIdentity(es)
  }

  predicate StructurallyEqual(a: Node, b: Node) {
    match (a, b)
    case (Scalar(_, s), Scalar(_, t)) => Trim(s) == Trim(t)
    case (Sequence(s), Sequence(t)) => |s| == |t| && forall i | 0 <= i < |s| :: StructurallyEqual(s[i], t[i])
    case (Mapping(s), Mapping(t)) =>
      |s| == |t| && forall i | 0 <= i < |s| :: Trim(s[i].key) == Trim(t[i].key) && StructurallyEqual(s[i].value, t[i].value)
    case _ => false
  }

  /** Identity of mappings, trimmed text of scalars. */
  predicate SameIdentity(a: Node, b: Node) {
    match (a, b)
    case (Mapping(s), Mapping(t)) => Identity(t) != "" && Identity(s) == Identity(t)
    case (Scalar(_, s), Scalar(_, t)) => Trim(t) != "" && Trim(s) == Trim(t)
    case _ => false
  }

  /** First unused element that satisfies the test. */
  function FirstMatch(original: seq<Node>, used: set<nat>, test: Node -> bool, i: nat): (r: Option<nat>)
    requires i <= |original|
    ensures r.Some? ==> i <= r.value < |original| && r.value !in used && test(original[r.value])
    ensures r.None? ==> forall j | i <= j < |original| :: j in used || !test(original[j])
    decreases |original| - i
  {
    if i == |original| then None
    else if i !in used && test(original[i]) then Some(i)
    else FirstMatch(original, used, test, i + 1)
  }

  function MatchElement(original: seq<Node>, used: set<nat>, target: Node): (r: Option<nat>)
    ensures r.Some? ==> r.value < |original| && r.value !in used
    ensures r.Some? ==> SameIdentity(original[r.value], target) || StructurallyEqual(original[r.value], target)
    ensures r.None? ==> forall j | 0 <= j < |original| && j !in used :: !SameIdentity(original[j], target)
    ensures r.None? ==> forall j | 0 <= j < |original| && j !in used :: !StructurallyEqual(original[j], target)
  {
    var same := FirstMatch(original, used, n => SameIdentity(n, target), 0);
    if same.Some? then same else FirstMatch(original, used, n => StructurallyEqual(n, target), 0)
  }

  /** For each target the original element it takes over, if any. */
  function MatchAll(original: seq<Node>, used: set<nat>, targets: seq<Node>): (r: seq<Option<nat>>)
    ensures |r| == |targets|
    ensures forall i | 0 <= i < |r| && r[i].Some? :: r[i].value < |original| && r[i].value !in used
    decreases |targets|
  {
    if targets == [] then []
    else
      var m := MatchElement(original, used, targets[0]);
      [m] + MatchAll(original, if m.Some? then used + {m.value} else used, targets[1..])
  }

  ghost predicate EachOnce(taken: seq<Option<nat>>) {
    forall i, j | 0 <= i < j < |taken| && taken[i].Some? && taken[j].Some? :: taken[i] != taken[j]
  }

  /** No original element is taken over twice. */
  lemma {:induction false} MatchedOnce(original: seq<Node>, used: set<nat>, targets: seq<Node>)
    ensures EachOnce(MatchAll(original, used, targets))
    decreases |targets|
  {
    if targets != [] {
      var m := MatchElement(original, used, targets[0]);
      var next := if m.Some? then used + {m.value} else used;
      MatchedOnce(original, next, targets[1..]);
      var rest := MatchAll(original, next, targets[1..]);
      forall j | 0 <= j < |rest| && rest[j].Some? && m.Some? ensures rest[j] != m {
        assert rest[j].value !in next;
      }
    }
  }

  // ---- merging ------------------------------------------------------------------

  function MergeNode(p: Policy, dst: Node, src: Node, path: Path): Node
    decreases src, 2
  {
    match src
    case Scalar(_, _) => src
    case Sequence(items) =>
      if IsNull(dst) && items == [] then dst
      else Sequence(MergeItems(p, if dst.Sequence? then dst.items else [], items, path))
    case Mapping(es) =>
      var merged := MergeEntries(p, if dst.Mapping? then dst.entries else es, es, path);
      Mapping(if p.prunesNested(path) then PruneMissing(merged, es) else merged)
  }

  function MergeEntries(p: Policy, dst: seq<Entry>, src: seq<Entry>, path: Path): seq<Entry>
    decreases src, 1
  {
    if src == [] then dst
    else
      var e := src[0];
      var child := path + [e.key];
      var found := Lookup(dst, e.key);
      if p.pluginConfigs(child) then MergeEntries(p, dst, src[1..], path)
      else if found.Some? then MergeEntries(p, Put(dst, e.key, MergeNode(p, found.value, e.value, child)), src[1..], path)
      else
        var candidate := PruneNew(p, child, e.value);
        if p.knownDefault(child, candidate) then MergeEntries(p, dst, src[1..], path)
        else MergeEntries(p, dst + [Entry(e.key, candidate)], src[1..], path)
  }

  /** Sequence elements additionally lose the keys their source does not have. */
  function MergeElement(p: Policy, dst: Node, src: Node, path: Path): Node
    decreases src, 3
  {
    var merged := MergeNode(p, dst, src, path);
    if merged.Mapping? && src.Mapping? then Mapping(PruneMissing(merged.entries, src.entries)) else merged
  }

  function MergeItems(p: Policy, dst: seq<Node>, src: seq<Node>, path: Path): (r: seq<Node>)
    ensures |r| == |src|
    decreases src, 1
  {
    if dst == [] then src
    else
      var taken := MatchAll(dst, {}, src);
      seq(|src|, i requires 0 <= i < |src| =>
        if taken[i].Some? then MergeElement(p, dst[taken[i].value], src[i], path) else src[i])
  }

  // ---- what a merged document says ------------------------------------------------

  /**
   The merged node says what the source says: scalars by tag and text, sequences element by
   element, mappings key by key.  A key may be missing only if its value is elided from new
   nodes, and a null may stand for an empty sequence.
   */
  ghost predicate Agrees(p: Policy, src: Node, r: Node, path: Path)
    decreases src
  {
    match src
    case Scalar(_, _) => r == src
    case Sequence(items) =>
      || (items == [] && IsNull(r))
      || (r.Sequence? && |r.items| == |items| && forall i | 0 <= i < |items| :: Agrees(p, items[i], r.items[i], path))
    case Mapping(es) =>
      r.Mapping? && forall i | 0 <= i < |es| :: KeyAgrees(p, es[i], Lookup(r.entries, es[i].key), path)
  }

  ghost predicate KeyAgrees(p: Policy, e: Entry, found: Option<Node>, path: Path)
    decreases e
  {
    var child := path + [e.key];
    || p.pluginConfigs(child)
    || (match found
        case Some(v) => Agrees(p, e.value, v, child)
        case None => Elidable(p, child, e.value))
  }

  lemma {:induction false} AgreesWithItself(p: Policy, n: Node, path: Path)
    requires Unique(n)
    ensures Agrees(p, n, n, path)
    decreases n
  {
    match n
    case Scalar(_, _) =>
    case Sequence(items) =>
      forall i | 0 <= i < |items| ensures Agrees(p, items[i], items[i], path) { AgreesWithItself(p, items[i], path); }
    case Mapping(es) =>
      forall i | 0 <= i < |es| ensures KeyAgrees(p, es[i], Lookup(es, es[i].key), path) {
        LookupAt(es, i);
        AgreesWithItself(p, es[i].value, path + [es[i].key]);
      }
  }

  lemma PruneNewLookup(p: Policy, path: Path, es: seq<Entry>, i: nat)
    requires UniqueKeys(es) && i < |es|
    ensures Lookup(PruneNewEntries(p, path, es), es[i].key) ==
      var child := path + [es[i].key];
      if p.knownDefault(child, es[i].value) || EmptyCollection(PruneNew(p, child, es[i].value)) then None
      else Some(PruneNew(p, child, es[i].value))
  {
    if i == 0 {
      LookupIsMember(es[1..], es[0].key);
      PruneNewAbsent(p, path, es[1..], es[0].key);
    } else {
      PruneNewLookup(p, path, es[1..], i - 1);
    }
  }

  lemma PruneNewAbsent(p: Policy, path: Path, es: seq<Entry>, key: string)
    requires Lookup(es, key).None?
    ensures Lookup(PruneNewEntries(p, path, es), key).None?
  {
  }

  /** Pruning a new node leaves out only what may be left out. */
  lemma {:induction false} PruneNewAgrees(p: Policy, path: Path, n: Node)
    requires Unique(n)
    ensures Agrees(p, n, PruneNew(p, path, n), path)
    decreases n
  {
    if p.pluginSubtree(path) {
      AgreesWithItself(p, n, path);
    } else {
      match n
      case Scalar(_, _) =>
      case Sequence(items) =>
        forall i | 0 <= i < |items| ensures Agrees(p, items[i], PruneNew(p, path, items[i]), path) {
          PruneNewAgrees(p, path, items[i]);
        }
      case Mapping(es) =>
        forall i | 0 <= i < |es|
          ensures KeyAgrees(p, es[i], Lookup(PruneNewEntries(p, path, es), es[i].key), path)
        {
          PruneNewLookup(p, path, es, i);
          PruneNewAgrees(p, path + [es[i].key], es[i].value);
        }
    }
  }

  lemma PruneMissingLookup(es: seq<Entry>, src: seq<Entry>, key: string)
    ensures Lookup(PruneMissing(es, src), key) == if Kept(src, key) then Lookup(es, key) else None
  {
    if es != [] {
      PruneMissingLookup(es[1..], src, key);
      var rest := PruneMissing(es[1..], src);
      assert [] + rest == rest && ([es[0]] + rest)[1..] == rest;
    }
  }

  /** What merging makes of one key. */
  function MergedValue(p: Policy, before: Option<Node>, src: Node, child: Path): Option<Node> {
    if p.pluginConfigs(child) then before
    else if before.Some? then Some(MergeNode(p, before.value, src, child))
    else if p.knownDefault(child, PruneNew(p, child, src)) then None
    else Some(PruneNew(p, child, src))
  }

  lemma {:induction false} MergeEntriesAt(p: Policy, dst: seq<Entry>, src: seq<Entry>, path: Path, i: nat)
    requires UniqueKeys(src) && i < |src|
    ensures Lookup(MergeEntries(p, dst, src, path), src[i].key) ==
      MergedValue(p, Lookup(dst, src[i].key), src[i].value, path + [src[i].key])
    decreases |src|
  {
    var e := src[0];
    var next := MergeStep(p, dst, e, path);
    MergeStepLookup(p, dst, e, path, src[i].key);
    if i == 0 {
      assert forall j | 0 <= j < |src[1..]| :: src[1..][j].key != e.key;
      MergeEntriesOther(p, next, src[1..], path, e.key);
    } else {
      MergeEntriesAt(p, next, src[1..], path, i - 1);
    }
  }

  /** The entries after the first source entry is merged. */
  function MergeStep(p: Policy, dst: seq<Entry>, e: Entry, path: Path): (r: seq<Entry>)
    ensures forall rest :: MergeEntries(p, dst, [e] + rest, path) == MergeEntries(p, r, rest, path)
  {
    var child := path + [e.key];
    var found := Lookup(dst, e.key);
    assert forall rest: seq<Entry> :: ([e] + rest)[1..] == rest;
    if p.pluginConfigs(child) then dst
    else if found.Some? then Put(dst, e.key, MergeNode(p, found.value, e.value, child))
    else if p.knownDefault(child, PruneNew(p, child, e.value)) then dst
    else dst + [Entry(e.key, PruneNew(p, child, e.value))]
  }

  lemma MergeStepLookup(p: Policy, dst: seq<Entry>, e: Entry, path: Path, key: string)
    ensures Lookup(MergeStep(p, dst, e, path), key) ==
      if key == e.key then MergedValue(p, Lookup(dst, key), e.value, path + [e.key]) else Lookup(dst, key)
  {
    var child := path + [e.key];
    var found := Lookup(dst, e.key);
    if found.Some? { LookupPut(dst, e.key, MergeNode(p, found.value, e.value, child), key); }
    LookupAppend(dst, Entry(e.key, PruneNew(p, child, e.value)), key);
  }

  lemma LookupAppend(es: seq<Entry>, e: Entry, key: string)
    ensures Lookup(es + [e], key) == if Lookup(es, key).Some? then Lookup(es, key) else if e.key == key then Some(e.value) else None
  {
    if es == [] {
      assert es + [e] == [e] && [e][1..] == [];
    } else {
      assert (es + [e])[1..] == es[1..] + [e];
    }
  }

  /** Keys the source does not have keep their values. */
  lemma {:induction false} MergeEntriesOther(p: Policy, dst: seq<Entry>, src: seq<Entry>, path: Path, key: string)
    requires forall j | 0 <= j < |src| :: src[j].key != key
    ensures Lookup(MergeEntries(p, dst, src, path), key) == Lookup(dst, key)
    decreases |src|
  {
    if src != [] {
      MergeStepLookup(p, dst, src[0], path, key);
      assert [src[0]] + src[1..] == src;
      MergeEntriesOther(p, MergeStep(p, dst, src[0], path), src[1..], path, key);
    }
  }

  lemma SourceKeyKept(src: seq<Entry>, i: nat)
    requires i < |src| && Trim(src[i].key) != ""
    ensures Kept(src, src[i].key)
  {
  }

  /**
   Where stale keys are removed, blank keys of the source go as well.  This says that none of
   them matters: in a pruned mapping, or in an element that takes an original one over, the
   value of a blank key may be left out anyway.
   */
  ghost predicate BlankKeysSpared(p: Policy, dst: Node, src: Node, path: Path, element: bool)
    decreases src
  {
    match src
    case Scalar(_, _) => true
    case Sequence(items) =>
      var originals := if dst.Sequence? then dst.items else [];
      var taken := MatchAll(originals, {}, items);
      forall i | 0 <= i < |items| && taken[i].Some? ::
        BlankKeysSpared(p, originals[taken[i].value], items[i], path, true)
    case Mapping(es) =>
      var start := if dst.Mapping? then dst.entries else es;
      forall i | 0 <= i < |es| ::
        BlankKeySpared(p, es[i], Lookup(start, es[i].key), path, element || p.prunesNested(path))
  }

  ghost predicate BlankKeySpared(p: Policy, e: Entry, before: Option<Node>, path: Path, pruned: bool)
    decreases e
  {
    var child := path + [e.key];
    || p.pluginConfigs(child)
    || (if pruned && Trim(e.key) == "" then Elidable(p, child, e.value)
        else before.Some? ==> BlankKeysSpared(p, before.value, e.value, child, false))
  }

  function Merged(p: Policy, dst: Node, src: Node, path: Path, element: bool): Node {
    if element then MergeElement(p, dst, src, path) else MergeNode(p, dst, src, path)
  }

  /** What the merge makes of a source key, stale keys removed or not. */
  lemma MergedKey(p: Policy, dst: Node, src: Node, path: Path, element: bool, i: nat)
    requires src.Mapping? && UniqueKeys(src.entries) && i < |src.entries|
    ensures var e := src.entries[i]; var child := path + [e.key];
      && Merged(p, dst, src, path, element).Mapping?
      && Child(Merged(p, dst, src, path, element), e.key) ==
        if (element || p.prunesNested(path)) && Trim(e.key) == "" then None
        else MergedValue(p, Lookup(if dst.Mapping? then dst.entries else src.entries, e.key), e.value, child)
  {
    var es := src.entries;
    var start := if dst.Mapping? then dst.entries else es;
    var merged := MergeEntries(p, start, es, path);
    var node := MergeNode(p, dst, src, path);
    assert node == Mapping(if p.prunesNested(path) then PruneMissing(merged, es) else merged);
    MergeEntriesAt(p, start, es, path, i);
    PruneMissingLookup(merged, es, es[i].key);
    PruneMissingLookup(node.entries, es, es[i].key);
    assert element ==> Merged(p, dst, src, path, element) == Mapping(PruneMissing(node.entries, es));
    if Trim(es[i].key) != "" { SourceKeyKept(es, i); }
  }

  /**
   Main result: the merged document agrees with the source everywhere the source speaks,
   exactly if no blank key that matters stands where stale keys are removed.
   */
  lemma {:induction false} MergeAgrees(p: Policy, dst: Node, src: Node, path: Path, element: bool)
    requires Unique(src)
    ensures Agrees(p, src, Merged(p, dst, src, path, element), path) <==> BlankKeysSpared(p, dst, src, path, element)
    decreases src, 1
  {
    match src
    case Scalar(_, _) =>
    case Sequence(items) =>
      if !(IsNull(dst) && items == []) { MergeItemsAgree(p, if dst.Sequence? then dst.items else [], items, path); }
    case Mapping(es) =>
      var start := if dst.Mapping? then dst.entries else es;
      var r := Merged(p, dst, src, path, element);
      assert MergeNode(p, dst, src, path).Mapping? && r.Mapping?;
      forall i | 0 <= i < |es|
        ensures KeyAgrees(p, es[i], Lookup(r.entries, es[i].key), path) <==>
                BlankKeySpared(p, es[i], Lookup(start, es[i].key), path, element || p.prunesNested(path))
      {
        MergedKey(p, dst, src, path, element, i);
        PruneNewAgrees(p, path + [es[i].key], es[i].value);
        if Lookup(start, es[i].key).Some? {
          MergeAgrees(p, Lookup(start, es[i].key).value, es[i].value, path + [es[i].key], false);
        }
      }
  }

  lemma {:induction false} MergeItemsAgree(p: Policy, dst: seq<Node>, src: seq<Node>, path: Path)
    requires forall i | 0 <= i < |src| :: Unique(src[i])
    ensures var r, taken := MergeItems(p, dst, src, path), MatchAll(dst, {}, src);
      forall i | 0 <= i < |src| :: Agrees(p, src[i], r[i], path) <==>
        (taken[i].Some? ==> BlankKeysSpared(p, dst[taken[i].value], src[i], path, true))
    decreases src, 0
  {
    var taken := MatchAll(dst, {}, src);
    forall i | 0 <= i < |src|
      ensures Agrees(p, src[i], MergeItems(p, dst, src, path)[i], path) <==>
        (taken[i].Some? ==> BlankKeysSpared(p, dst[taken[i].value], src[i], path, true))
    {
      AgreesWithItself(p, src[i], path);
      if taken[i].Some? { MergeAgrees(p, dst[taken[i].value], src[i], path, true); }
    }
  }

  /** No mapping has a key that is blank after trimming. */
  ghost predicate NoBlankKeys(n: Node) {
    match n
    case Scalar(_, _) => true
    case Sequence(items) => forall i | 0 <= i < |items| :: NoBlankKeys(items[i])
    case Mapping(es) => forall i | 0 <= i < |es| :: Trim(es[i].key) != "" && NoBlankKeys(es[i].value)
  }

  /** A source without blank keys is always met, whatever the destination. */
  lemma {:induction false} NoBlankKeysSpared(p: Policy, dst: Node, src: Node, path: Path, element: bool)
    requires NoBlankKeys(src)
    ensures BlankKeysSpared(p, dst, src, path, element)
    decreases src
  {
    match src
    case Scalar(_, _) =>
    case Sequence(items) =>
      var originals := if dst.Sequence? then dst.items else [];
      var taken := MatchAll(originals, {}, items);
      forall i | 0 <= i < |items| && taken[i].Some?
        ensures BlankKeysSpared(p, originals[taken[i].value], items[i], path, true)
      {
        NoBlankKeysSpared(p, originals[taken[i].value], items[i], path, true);
      }
    case Mapping(es) =>
      var start := if dst.Mapping? then dst.entries else es;
      forall i | 0 <= i < |es|
        ensures BlankKeySpared(p, es[i], Lookup(start, es[i].key), path, element || p.prunesNested(path))
      {
        var before := Lookup(start, es[i].key);
        if before.Some? { NoBlankKeysSpared(p, before.value, es[i].value, path + [es[i].key], false); }
      }
  }

  // ---- a blank key that is lost -----------------------------------------------------

  const BLANK_HEADER := Mapping([Entry("", Scalar("!!str", "x"))])

  lemma BlankHeaderMatters(path: Path)
    requires |path| == 2
    ensures !Elidable(CONFIG_POLICY, path + [""], Scalar("!!str", "x"))
  {
    var child := path + [""];
    assert child[2] == "" && |child| == 3;
    assert !PluginConfigs(child);
    assert "x" != "" && !IsZero(Scalar("!!str", "x"));
  }

  /** In the real configuration: a header with a blank name is lost, although the rendered file has it. */
  lemma BlankHeaderLost()
    ensures var path := ["codex-api-key", "headers"];
      && PrunesNested(path)
      && Child(MergeNode(CONFIG_POLICY, EMPTY_MAP, BLANK_HEADER, path), "").None?
      && !Agrees(CONFIG_POLICY, BLANK_HEADER, MergeNode(CONFIG_POLICY, EMPTY_MAP, BLANK_HEADER, path), path)
  {
    var path := ["codex-api-key", "headers"];
    BlankHeaderMatters(path);
    var e := BLANK_HEADER.entries[0];
    assert BlankKeySpared(CONFIG_POLICY, e, Lookup([], e.key), path, true) <==> Elidable(CONFIG_POLICY, path + [""], e.value);
    MergeAgrees(CONFIG_POLICY, EMPTY_MAP, BLANK_HEADER, path, false);
    MergedKey(CONFIG_POLICY, EMPTY_MAP, BLANK_HEADER, path, false, 0);
  }

  /** Where nothing is pruned the same mapping is merged as it is. */
  lemma BlankKeyKept()
    ensures var path := ["payload", "params"];
      Agrees(CONFIG_POLICY, BLANK_HEADER, MergeNode(CONFIG_POLICY, EMPTY_MAP, BLANK_HEADER, path), path)
  {
    MergeAgrees(CONFIG_POLICY, EMPTY_MAP, BLANK_HEADER, ["payload", "params"], false);
  }

  /**
   The path leads to something only the user's document has: through mappings on both sides
   that are not pruned, to the first key the source is missing.
   */
  ghost predicate OnlyUsers(p: Policy, dst: Node, src: Node, path: Path, q: Path)
    decreases |q|
  {
    && q != [] && dst.Mapping? && src.Mapping? && !p.prunesNested(path)
    && (p.pluginConfigs(path + [q[0]]) || Child(src, q[0]).None? ||
        (Child(dst, q[0]).Some? &&
         OnlyUsers(p, Child(dst, q[0]).value, Child(src, q[0]).value, path + [q[0]], q[1..])))
  }

  /** Main result: at any depth, what only the user's document has survives unchanged. */
  lemma {:induction false} UnknownKeysSurvive(p: Policy, dst: Node, src: Node, path: Path, q: Path)
    requires Unique(src) && OnlyUsers(p, dst, src, path, q)
    ensures Get(MergeNode(p, dst, src, path), q) == Get(dst, q)
    decreases |q|
  {
    var es := src.entries;
    LookupIsMember(es, q[0]);
    if Child(src, q[0]).None? {
      MergeEntriesOther(p, dst.entries, es, path, q[0]);
    } else {
      var i :| 0 <= i < |es| && es[i].key == q[0] && es[i].value == Child(src, q[0]).value;
      MergeEntriesAt(p, dst.entries, es, path, i);
      if !p.pluginConfigs(path + [q[0]]) {
        UnknownKeysSurvive(p, Child(dst, q[0]).value, es[i].value, path + [q[0]], q[1..]);
      }
    }
  }

  /** In pruned mappings and sequence elements a key stays exactly if the source has it up to trimming. */
  lemma StaleKeysRemoved(p: Policy, dst: Node, src: Node, path: Path, key: string)
    requires dst.Mapping? && src.Mapping? && Child(src, key).None?
    ensures Child(MergeElement(p, dst, src, path), key) == if Kept(src.entries, key) then Child(dst, key) else None
    ensures p.prunesNested(path) ==>
      Child(MergeNode(p, dst, src, path), key) == if Kept(src.entries, key) then Child(dst, key) else None
  {
    var merged := MergeEntries(p, dst.entries, src.entries, path);
    LookupIsMember(src.entries, key);
    MergeEntriesOther(p, dst.entries, src.entries, path, key);
    PruneMissingLookup(merged, src.entries, key);
    PruneMissingLookup(PruneMissing(merged, src.entries), src.entries, key);
  }
}
