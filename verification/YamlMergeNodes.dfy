/**
 The merge as it runs: the user's nodes are rewritten in place and kept where they can be.
 Each method is proved to compute the merge on documents it is named after, so what is
 proved of that merge holds of the nodes.

 Models CLIProxyAPI/internal/config/config_yaml.go, mergeMappingPreserve, mergeNodePreserve,
 reorderSequenceForMerge, matchSequenceElement, pruneKnownDefaultsInNewNode and
 pruneMissingMapKeys, on alias-free documents.
 */
module YamlMergeNodes {
  import opened Wrappers
  import opened YamlTree
  import opened Text
  import opened YamlNodes
  import opened YamlMerge
  import LayoutRewriter

  // ---- stale keys -------------------------------------------------------------

  /** The trimmed keys of the entries that are not blank. */
  ghost predicate TrimmedKeys(keep: set<string>, src: seq<Entry>) {
    forall key :: Trim(key) in keep <==> Kept(src, key)
  }

  method KeptKeys(src: YamlNode) returns (keep: set<string>)
    requires src.Valid() && src.kind == MappingNode
    ensures TrimmedKeys(keep, src.Tree.entries)
  {
    ghost var es := src.Tree.entries;
    keep := {};
    for i := 0 to |src.keys|
      invariant TrimmedKeys(keep, es[..i])
    {
      var key := Trim(src.keys[i]);
      assert es[..i + 1] == es[..i] + [es[i]];
      KeptMore(es[..i], es[i]);
      if key != "" { keep := keep + {key}; }
    }
    assert es[..|es|] == es;
  }

  lemma KeptMore(es: seq<Entry>, e: Entry)
    ensures forall key :: Kept(es + [e], key) <==> Kept(es, key) || (Trim(key) != "" && Trim(key) == Trim(e.key))
  {
    forall key ensures Kept(es + [e], key) <==> Kept(es, key) || (Trim(key) != "" && Trim(key) == Trim(e.key)) {
      assert (es + [e])[|es|] == e;
      if Kept(es, key) {
        var i :| 0 <= i < |es| && Trim(es[i].key) == Trim(key);
        assert (es + [e])[i] == es[i];
      }
    }
  }

  /** Removes the keys of one mapping that the other one does not have. */
  method PruneMissingMapKeys(dst: YamlNode, src: YamlNode)
    requires dst.Valid() && src.Valid() && dst !in src.Repr
    modifies dst
    ensures dst.Valid() && dst.Repr == old(dst.Repr)
    ensures dst.Tree == if old(dst.Tree).Mapping? && src.Tree.Mapping?
      then Mapping(PruneMissing(old(dst.Tree).entries, src.Tree.entries)) else old(dst.Tree)
  {
    if dst.kind != MappingNode || src.kind != MappingNode { return; }
    var keep := KeptKeys(src);
    RemoveMissing(dst, keep, src.Tree.entries);
  }

  method RemoveMissing(dst: YamlNode, keep: set<string>, ghost src: seq<Entry>)
    requires dst.Valid() && dst.kind == MappingNode && TrimmedKeys(keep, src)
    modifies dst
    ensures dst.Valid() && dst.Repr == old(dst.Repr)
    ensures dst.Tree == Mapping(PruneMissing(old(dst.Tree.entries), src))
  {
    ghost var before := dst.Tree.entries;
    var i := 0;
    while i < |dst.content|
      invariant dst.Valid() && dst.Repr == old(dst.Repr) && dst.kind == MappingNode && 0 <= i <= |dst.content|
      invariant PrunedUpTo(dst.Tree.entries, i, before, src)
      decreases |dst.content| - i
    {
      i := KeepOrRemove(dst, i, keep, before, src);
    }
    PrunedAll(dst.Tree.entries, before, src);
  }

  /** One entry stays or goes. */
  method KeepOrRemove(dst: YamlNode, i: nat, keep: set<string>, ghost before: seq<Entry>, ghost src: seq<Entry>)
    returns (next: nat)
    requires dst.Valid() && dst.kind == MappingNode && TrimmedKeys(keep, src) && i < |dst.content|
    requires PrunedUpTo(dst.Tree.entries, i, before, src)
    modifies dst
    ensures dst.Valid() && dst.Repr == old(dst.Repr) && dst.kind == MappingNode
    ensures next <= |dst.content| && |dst.content| - next < old(|dst.content|) - i
    ensures PrunedUpTo(dst.Tree.entries, next, before, src)
  {
    PruneOne(dst.Tree.entries, i, before, src);
    KeptByKeys(keep, src, dst.keys[i]);
    if Trim(dst.keys[i]) in keep { return i + 1; }
    RemoveEntry(dst, i);
    next := i;
  }

  lemma KeptByKeys(keep: set<string>, src: seq<Entry>, key: string)
    requires TrimmedKeys(keep, src)
    ensures Trim(key) in keep <==> Kept(src, key)
  {
  }

  ghost predicate PrunedUpTo(es: seq<Entry>, i: nat, before: seq<Entry>, src: seq<Entry>)
    requires i <= |es|
  {
    es[..i] + PruneMissing(es[i..], src) == PruneMissing(before, src)
  }

  lemma PruneOne(es: seq<Entry>, i: nat, before: seq<Entry>, src: seq<Entry>)
    requires i < |es| && PrunedUpTo(es, i, before, src)
    ensures Kept(src, es[i].key) ==> PrunedUpTo(es, i + 1, before, src)
    ensures !Kept(src, es[i].key) ==> PrunedUpTo(es[..i] + es[i + 1..], i, before, src)
  {
    assert es[i..][0] == es[i] && es[i..][1..] == es[i + 1..];
    if Kept(src, es[i].key) {
      assert es[..i + 1] == es[..i] + [es[i]];
      assert es[..i] + ([es[i]] + PruneMissing(es[i + 1..], src)) == es[..i + 1] + PruneMissing(es[i + 1..], src);
    } else {
      assert (es[..i] + es[i + 1..])[..i] == es[..i] && (es[..i] + es[i + 1..])[i..] == es[i + 1..];
      assert [] + PruneMissing(es[i + 1..], src) == PruneMissing(es[i + 1..], src);
    }
  }

  lemma PrunedAll(es: seq<Entry>, before: seq<Entry>, src: seq<Entry>)
    requires PrunedUpTo(es, |es|, before, src)
    ensures es == PruneMissing(before, src)
  {
    assert es[..|es|] == es && es[|es|..] == [];
    assert es + [] == es;
  }

  // ---- new nodes ----------------------------------------------------------------

  /** Valid nodes apart from each other, with their objects and their documents. */
  ghost predicate Forest(ns: seq<YamlNode>, reprs: seq<set<object>>, vs: seq<Node>)
    reads ns, set n, o | n in ns && o in n.Repr :: o
  {
    && |ns| == |reprs| == |vs|
    && (forall i {:trigger reprs[i]} | 0 <= i < |ns| :: ns[i].Valid() && ns[i].Repr == reprs[i] && ns[i].Tree == vs[i])
    && (forall i, j {:trigger reprs[i], reprs[j]} | 0 <= i < j < |ns| :: reprs[i] !! reprs[j])
  }

  ghost predicate Below(reprs: seq<set<object>>, n: YamlNode, repr: set<object>) {
    n in repr && forall i {:trigger reprs[i]} | 0 <= i < |reprs| :: n !in reprs[i] && reprs[i] <= repr
  }

  /** What a valid node's children look like. */
  ghost method Children(n: YamlNode) returns (reprs: seq<set<object>>, vs: seq<Node>)
    requires n.Valid()
    ensures Forest(n.content, reprs, vs) && Below(reprs, n, n.Repr)
    ensures forall i {:trigger reprs[i]} | 0 <= i < |reprs| :: reprs[i] < n.Repr
    ensures n.kind == SequenceNode ==> vs == n.Tree.items
    ensures n.kind == MappingNode ==> forall i | 0 <= i < |vs| :: n.Tree.entries[i] == Entry(n.keys[i], vs[i])
  {
    reprs := seq(|n.content|, i requires 0 <= i < |n.content| reads n, n.content => n.content[i].Repr);
    vs := seq(|n.content|, i requires 0 <= i < |n.content| reads n, n.content => n.content[i].Tree);
  }

  /** Prunes one of several nodes. */
  method PruneChild(p: Policy, path: Path, cs: seq<YamlNode>, i: nat, ghost reprs: seq<set<object>>, ghost vs: seq<Node>)
    requires Forest(cs, reprs, vs) && i < |cs|
    modifies reprs[i]
    ensures Forest(cs, reprs, vs[i := PruneNew(p, path, vs[i])])
    decreases reprs[i], 2
  {
    PruneKnownDefaults(p, path, cs[i]);
    forall j | 0 <= j < |cs| && j != i ensures cs[j].Valid() && cs[j].Repr == reprs[j] && cs[j].Tree == vs[j] {
      assert reprs[j] !! reprs[i];
    }
  }

  /** Removes default-valued descendants of a node that was just made. */
  method PruneKnownDefaults(p: Policy, path: Path, n: YamlNode)
    requires n.Valid()
    modifies n.Repr
    ensures n.Valid() && n.Repr == old(n.Repr)
    ensures n.Tree == PruneNew(p, path, old(n.Tree))
    decreases n.Repr, 1
  {
    if p.pluginSubtree(path) { return; }
    if n.kind == MappingNode {
      PruneMapping(p, path, n);
    } else if n.kind == SequenceNode {
      PruneSequence(p, path, n);
    }
  }

  method PruneSequence(p: Policy, path: Path, n: YamlNode)
    requires n.Valid() && n.kind == SequenceNode && !p.pluginSubtree(path)
    modifies n.Repr
    ensures n.Valid() && n.Repr == old(n.Repr)
    ensures n.Tree == PruneNew(p, path, old(n.Tree))
    decreases n.Repr, 0
  {
    ghost var reprs, vs := Children(n);
    ghost var before, repr := vs, n.Repr;
    for i := 0 to |n.content|
      invariant n.kind == SequenceNode && n.content == old(n.content) && n.Repr == repr && Below(reprs, n, repr)
      invariant Forest(n.content, reprs, vs)
      invariant forall j | 0 <= j < i :: vs[j] == PruneNew(p, path, before[j])
      invariant forall j | i <= j < |vs| :: vs[j] == before[j]
    {
      assert reprs[i] < repr;
      PruneChild(p, path, n.content, i, reprs, vs);
      vs := vs[i := PruneNew(p, path, vs[i])];
    }
    forall i | 0 <= i < |n.content| ensures n.content[i].Repr == reprs[i] {}
    Rebuild(n, repr, PruneNew(p, path, Sequence(before)));
  }

  /** The kept entries: the k-th is the child at position at[k]. */
  ghost predicate KeptSoFar(keys: seq<string>, kept: seq<YamlNode>, at: seq<nat>, es: seq<Entry>,
                            cs: seq<YamlNode>, vs: seq<Node>, n: nat)
    requires n <= |cs| == |vs|
  {
    && |keys| == |kept| == |at| == |es|
    && (forall k {:trigger at[k]} | 0 <= k < |at| :: at[k] < n && kept[k] == cs[at[k]] && es[k] == Entry(keys[k], vs[at[k]]))
    && (forall k, l {:trigger at[k], at[l]} | 0 <= k < l < |at| :: at[k] < at[l])
  }

  /** Replaces the children of a mapping by some of them. */
  method KeepChildren(n: YamlNode, keys: seq<string>, kept: seq<YamlNode>,
                      ghost at: seq<nat>, ghost es: seq<Entry>, ghost reprs: seq<set<object>>, ghost vs: seq<Node>)
    requires n.kind == MappingNode && Forest(n.content, reprs, vs) && Below(reprs, n, n.Repr)
    requires KeptSoFar(keys, kept, at, es, n.content, vs, |n.content|)
    modifies n
    ensures n.Valid() && n.Repr == old(n.Repr) && n.Tree == Mapping(es)
  {
    n.keys, n.content := keys, kept;
    forall k | 0 <= k < |kept|
      ensures kept[k].Valid() && kept[k].Repr == reprs[at[k]] && n !in kept[k].Repr && kept[k].Repr <= n.Repr
      ensures es[k] == Entry(keys[k], kept[k].Tree)
    {
      assert n !in reprs[at[k]];
    }
    Rebuild(n, n.Repr, Mapping(es));
  }

  /** Whether a pruned child is worth an entry of a new mapping. */
  predicate WorthKeeping(p: Policy, child: Path, v: Node) {
    !p.knownDefault(child, v) && !EmptyCollection(PruneNew(p, child, v))
  }

  /** The entries kept so far and what the other ones become make up the pruned mapping. */
  ghost predicate PrunedSoFar(p: Policy, path: Path, kept: seq<Entry>, rest: seq<Entry>, all: seq<Entry>) {
    kept + PruneNewEntries(p, path, rest) == PruneNewEntries(p, path, all)
  }

  lemma PruneNewStep(p: Policy, path: Path, kept: seq<Entry>, rest: seq<Entry>, all: seq<Entry>, keep: bool, v: Node)
    requires PrunedSoFar(p, path, kept, rest, all) && rest != []
    requires keep == WorthKeeping(p, path + [rest[0].key], rest[0].value)
    requires keep ==> v == PruneNew(p, path + [rest[0].key], rest[0].value)
    ensures PrunedSoFar(p, path, if keep then kept + [Entry(rest[0].key, v)] else kept, rest[1..], all)
  {
  }

  lemma KeptPlus(keys: seq<string>, kept: seq<YamlNode>, at: seq<nat>, es: seq<Entry>, cs: seq<YamlNode>,
                 vs: seq<Node>, i: nat, key: string, v: Node)
    requires |cs| == |vs| && i < |cs| && KeptSoFar(keys, kept, at, es, cs, vs, i)
    ensures KeptSoFar(keys, kept, at, es, cs, vs[i := v], i + 1)
    ensures KeptSoFar(keys + [key], kept + [cs[i]], at + [i], es + [Entry(key, v)], cs, vs[i := v], i + 1)
  {
  }

  /** Prunes one value and says whether its entry is kept. */
  method PruneEntry(p: Policy, child: Path, cs: seq<YamlNode>, i: nat, ghost reprs: seq<set<object>>, ghost vs: seq<Node>)
    returns (keep: bool, ghost after: seq<Node>)
    requires Forest(cs, reprs, vs) && i < |cs|
    modifies reprs[i]
    ensures Forest(cs, reprs, after) && after == vs[i := after[i]]
    ensures keep == WorthKeeping(p, child, vs[i])
    ensures keep ==> after[i] == PruneNew(p, child, vs[i])
    decreases reprs[i], 3
  {
    assert cs[i].Repr == reprs[i];
    var v := LayoutRewriter.Read(cs[i]);
    if p.knownDefault(child, v) { return false, vs; }
    PruneChild(p, child, cs, i, reprs, vs);
    after := vs[i := PruneNew(p, child, vs[i])];
    assert cs[i].Repr == reprs[i] && cs[i].Tree == after[i];
    keep := !((cs[i].kind == MappingNode || cs[i].kind == SequenceNode) && |cs[i].content| == 0);
  }

  /** The mapping while its entries are pruned: the first i are done. */
  ghost predicate Pruning(p: Policy, path: Path, n: YamlNode, before: seq<Entry>, i: nat, keys: seq<string>,
                          kept: seq<YamlNode>,
                          at: seq<nat>, es: seq<Entry>, reprs: seq<set<object>>, vs: seq<Node>)
    reads n, n.content, set c, o | c in n.content && o in c.Repr :: o
  {
    && n.kind == MappingNode && Forest(n.content, reprs, vs) && Below(reprs, n, n.Repr)
    && |before| == |n.keys| == |n.content| && i <= |before|
    && KeptSoFar(keys, kept, at, es, n.content, vs, i)
    && (forall j {:trigger before[j]} | i <= j < |before| :: before[j] == Entry(n.keys[j], vs[j]))
    && PrunedSoFar(p, path, es, before[i..], before)
  }

  /** Prunes one entry. */
  method PruneNext(p: Policy, path: Path, n: YamlNode, i: nat, keys: seq<string>, kept: seq<YamlNode>,
                   ghost before: seq<Entry>, ghost at: seq<nat>, ghost es: seq<Entry>, ghost reprs: seq<set<object>>, ghost vs: seq<Node>)
    returns (keep: bool, ghost after: seq<Node>)
    requires Pruning(p, path, n, before, i, keys, kept, at, es, reprs, vs) && i < |before|
    modifies reprs[i]
    ensures n.content == old(n.content) && n.keys == old(n.keys) && n.Repr == old(n.Repr)
    ensures |after| == |vs|
    ensures !keep ==> Pruning(p, path, n, before, i + 1, keys, kept, at, es, reprs, after)
    ensures keep ==> Pruning(p, path, n, before, i + 1, keys + [n.keys[i]], kept + [n.content[i]],
                             at + [i], es + [Entry(n.keys[i], after[i])], reprs, after)
    decreases reprs[i], 4
  {
    assert before[i..][0] == before[i] && before[i..][1..] == before[i + 1..];
    assert n !in reprs[i];
    keep, after := PruneEntry(p, path + [n.keys[i]], n.content, i, reprs, vs);
    KeptPlus(keys, kept, at, es, n.content, vs, i, n.keys[i], after[i]);
    PruneNewStep(p, path, es, before[i..], before, keep, after[i]);
  }

  method PruneMapping(p: Policy, path: Path, n: YamlNode)
    requires n.Valid() && n.kind == MappingNode && !p.pluginSubtree(path)
    modifies n.Repr
    ensures n.Valid() && n.Repr == old(n.Repr)
    ensures n.Tree == PruneNew(p, path, old(n.Tree))
    decreases n.Repr, 0
  {
    ghost var reprs, vs := Children(n);
    ghost var before, repr := n.Tree.entries, n.Repr;
    var keys: seq<string>, kept: seq<YamlNode> := [], [];
    ghost var at: seq<nat>, es: seq<Entry> := [], [];
    for i := 0 to |n.content|
      invariant n.content == old(n.content) && n.Repr == repr
      invariant Pruning(p, path, n, before, i, keys, kept, at, es, reprs, vs)
    {
      assert reprs[i] < repr;
      var keep;
      ghost var after;
      keep, after := PruneNext(p, path, n, i, keys, kept, before, at, es, reprs, vs);
      if keep {
        keys, kept := keys + [n.keys[i]], kept + [n.content[i]];
        at, es := at + [i], es + [Entry(n.keys[i], after[i])];
      }
      vs := after;
    }
    assert before[|before|..] == [] && es + [] == es;
    KeepChildren(n, keys, kept, at, es, reprs, vs);
  }

  // ---- sequences ----------------------------------------------------------------

  /** Index of the unused element the target takes over, or -1. */
  method MatchSequenceElement(original: seq<YamlNode>, used: seq<bool>, target: YamlNode,
                              ghost reprs: seq<set<object>>, ghost vs: seq<Node>, ghost picked: set<nat>)
    returns (idx: int)
    requires Forest(original, reprs, vs) && target.Valid() && Marks(used, picked, |original|)
    ensures -1 <= idx < |original|
    ensures MatchElement(vs, picked, target.Tree) == if idx < 0 then None else Some(idx as nat)
  {
    var t := LayoutRewriter.Read(target);
    idx := FindIdentity(original, used, t, reprs, vs, picked);
    if idx < 0 { idx := FindStructure(original, used, t, reprs, vs, picked); }
  }

  /** The first unused element with the identity of the target, or -1. */
  method FindIdentity(original: seq<YamlNode>, used: seq<bool>, t: Node,
                      ghost reprs: seq<set<object>>, ghost vs: seq<Node>, ghost picked: set<nat>)
    returns (idx: int)
    requires Forest(original, reprs, vs) && Marks(used, picked, |original|)
    ensures -1 <= idx < |original|
    ensures FirstMatch(vs, picked, n => SameIdentity(n, t), 0) == if idx < 0 then None else Some(idx as nat)
  {
    for i := 0 to |original|
      invariant FirstMatch(vs, picked, n => SameIdentity(n, t), 0) == FirstMatch(vs, picked, n => SameIdentity(n, t), i)
    {
      assert original[i].Repr == reprs[i];
      var o := LayoutRewriter.Read(original[i]);
      if !used[i] && SameIdentity(o, t) { return i; }
    }
    return -1;
  }

  /** The first unused element that looks like the target, or -1. */
  method FindStructure(original: seq<YamlNode>, used: seq<bool>, t: Node,
                       ghost reprs: seq<set<object>>, ghost vs: seq<Node>, ghost picked: set<nat>)
    returns (idx: int)
    requires Forest(original, reprs, vs) && Marks(used, picked, |original|)
    ensures -1 <= idx < |original|
    ensures FirstMatch(vs, picked, n => StructurallyEqual(n, t), 0) == if idx < 0 then None else Some(idx as nat)
  {
    for i := 0 to |original|
      invariant FirstMatch(vs, picked, n => StructurallyEqual(n, t), 0) == FirstMatch(vs, picked, n => StructurallyEqual(n, t), i)
    {
      assert original[i].Repr == reprs[i];
      var o := LayoutRewriter.Read(original[i]);
      if !used[i] && StructurallyEqual(o, t) { return i; }
    }
    return -1;
  }

  ghost predicate Marks(used: seq<bool>, picked: set<nat>, n: nat) {
    |used| == n && forall i: nat | i < n :: used[i] <==> i in picked
  }

  /** Where the objects of each ordered element come from. */
  ghost predicate Origin(ordered: seq<set<object>>, taken: seq<Option<nat>>, reprs: seq<set<object>>,
                         picked: set<nat>, copies: set<object>) {
    && |ordered| == |taken|
    && (forall i {:trigger ordered[i]} | 0 <= i < |ordered| :: From(ordered[i], taken[i], reprs, picked, copies))
  }

  ghost predicate From(objects: set<object>, source: Option<nat>, reprs: seq<set<object>>, picked: set<nat>,
                       copies: set<object>) {
    match source
    case Some(k) => k < |reprs| && k in picked && objects == reprs[k]
    case None => objects <= copies
  }

  ghost predicate Apart(reprs: seq<set<object>>) {
    forall i, j {:trigger reprs[i], reprs[j]} | 0 <= i < j < |reprs| :: reprs[i] !! reprs[j]
  }

  lemma OriginTake(ordered: seq<set<object>>, taken: seq<Option<nat>>, reprs: seq<set<object>>, picked: set<nat>,
                   copies: set<object>, k: nat)
    requires Origin(ordered, taken, reprs, picked, copies) && Apart(reprs)
    requires k < |reprs| && k !in picked && reprs[k] !! copies
    ensures Origin(ordered + [reprs[k]], taken + [Some(k)], reprs, picked + {k}, copies)
    ensures forall i {:trigger ordered[i]} | 0 <= i < |ordered| :: ordered[i] !! reprs[k]
  {
    forall i | 0 <= i < |ordered| ensures From(ordered[i], taken[i], reprs, picked + {k}, copies) && ordered[i] !! reprs[k] {
      assert From(ordered[i], taken[i], reprs, picked, copies);
    }
  }

  lemma OriginCopy(ordered: seq<set<object>>, taken: seq<Option<nat>>, reprs: seq<set<object>>, picked: set<nat>,
                   copies: set<object>, more: set<object>)
    requires Origin(ordered, taken, reprs, picked, copies)
    ensures Origin(ordered + [more], taken + [None], reprs, picked, copies + more)
  {
    forall i | 0 <= i < |ordered| ensures From(ordered[i], taken[i], reprs, picked, copies + more) {
      assert From(ordered[i], taken[i], reprs, picked, copies);
    }
  }

  lemma OriginBelow(ordered: seq<set<object>>, taken: seq<Option<nat>>, reprs: seq<set<object>>, picked: set<nat>,
                    copies: set<object>, n: YamlNode, repr: set<object>)
    requires Origin(ordered, taken, reprs, picked, copies) && Below(reprs, n, repr) && n !in copies
    ensures Below(ordered, n, repr + copies)
  {
    forall i | 0 <= i < |ordered| ensures n !in ordered[i] && ordered[i] <= repr + copies {
      assert From(ordered[i], taken[i], reprs, picked, copies);
    }
  }

  lemma ForestPlus(ns: seq<YamlNode>, reprs: seq<set<object>>, vs: seq<Node>, n: YamlNode)
    requires Forest(ns, reprs, vs) && n.Valid()
    requires forall i {:trigger reprs[i]} | 0 <= i < |reprs| :: reprs[i] !! n.Repr
    ensures Forest(ns + [n], reprs + [n.Repr], vs + [n.Tree])
  {
    forall i | 0 <= i < |ns| + 1
      ensures (ns + [n])[i].Valid() && (ns + [n])[i].Repr == (reprs + [n.Repr])[i] && (ns + [n])[i].Tree == (vs + [n.Tree])[i]
    {
      if i < |ns| { assert reprs[i] == ns[i].Repr; }
    }
  }

  /** The elements the source's ones are merged into: an original each, or a copy of the source's. */
  function Ordered(before: seq<Node>, src: seq<Node>, taken: seq<Option<nat>>): (r: seq<Node>)
    requires TakenFrom(taken, |before|) && |taken| <= |src|
    ensures |r| == |taken|
  {
    seq(|taken|, i requires 0 <= i < |taken| => if taken[i].Some? then before[taken[i].value] else src[i])
  }

  predicate TakenFrom(taken: seq<Option<nat>>, n: nat) {
    forall i | 0 <= i < |taken| && taken[i].Some? :: taken[i].value < n
  }

  lemma OrderedPlus(before: seq<Node>, src: seq<Node>, taken: seq<Option<nat>>, m: Option<nat>)
    requires TakenFrom(taken, |before|) && |taken| < |src| && (m.Some? ==> m.value < |before|)
    ensures TakenFrom(taken + [m], |before|)
    ensures Ordered(before, src, taken + [m]) ==
      Ordered(before, src, taken) + [if m.Some? then before[m.value] else src[|taken|]]
  {
  }

  /** Every element taken over is the same node, not a copy. */
  ghost predicate Reused(ns: seq<YamlNode>, before: seq<YamlNode>, taken: seq<Option<nat>>) {
    && |ns| == |taken|
    && (forall i {:trigger taken[i]} | 0 <= i < |taken| && taken[i].Some? :: taken[i].value < |before| && ns[i] == before[taken[i].value])
  }

  lemma ReusedPlus(ns: seq<YamlNode>, before: seq<YamlNode>, taken: seq<Option<nat>>, n: YamlNode, m: Option<nat>)
    requires Reused(ns, before, taken) && (m.Some? ==> m.value < |before| && n == before[m.value])
    ensures Reused(ns + [n], before, taken + [m])
  {
    forall i | 0 <= i < |taken| && taken[i].Some? ensures taken[i].value < |before| && ns[i] == before[taken[i].value] {}
  }

  lemma MatchStep(vs: seq<Node>, picked: set<nat>, items: seq<Node>, taken: seq<Option<nat>>)
    requires items != []
    ensures var m := MatchElement(vs, picked, items[0]);
      taken + MatchAll(vs, picked, items)
      == (taken + [m]) + MatchAll(vs, if m.Some? then picked + {m.value} else picked, items[1..])
  {
  }

  /** The first elements are in order: originals and copies, apart from each other. */
  ghost predicate InOrder(cs: seq<YamlNode>, vs: seq<Node>, reprs: seq<set<object>>, items: seq<Node>,
                          ordered: seq<YamlNode>,
                          taken: seq<Option<nat>>, orderedReprs: seq<set<object>>, picked: set<nat>, copies: set<object>)
    reads ordered, set n, o | n in ordered && o in n.Repr :: o
  {
    && |taken| <= |items| && TakenFrom(taken, |vs|) && Reused(ordered, cs, taken)
    && Origin(orderedReprs, taken, reprs, picked, copies)
    && Forest(ordered, orderedReprs, Ordered(vs, items, taken))
  }

  lemma TakeNext(cs: seq<YamlNode>, vs: seq<Node>, reprs: seq<set<object>>, items: seq<Node>, ordered: seq<YamlNode>,
                 taken: seq<Option<nat>>, orderedReprs: seq<set<object>>, picked: set<nat>, copies: set<object>, k: nat)
    requires Forest(cs, reprs, vs) && InOrder(cs, vs, reprs, items, ordered, taken, orderedReprs, picked, copies)
    requires |taken| < |items| && k < |cs| && k !in picked && reprs[k] !! copies
    ensures InOrder(cs, vs, reprs, items, ordered + [cs[k]], taken + [Some(k)], orderedReprs + [reprs[k]], picked + {k}, copies)
  {
    assert reprs[k] == cs[k].Repr;
    OriginTake(orderedReprs, taken, reprs, picked, copies, k);
    ForestPlus(ordered, orderedReprs, Ordered(vs, items, taken), cs[k]);
    OrderedPlus(vs, items, taken, Some(k));
    ReusedPlus(ordered, cs, taken, cs[k], Some(k));
  }

  lemma CopyNext(cs: seq<YamlNode>, vs: seq<Node>, reprs: seq<set<object>>, items: seq<Node>, ordered: seq<YamlNode>,
                 taken: seq<Option<nat>>, orderedReprs: seq<set<object>>, picked: set<nat>, copies: set<object>, copy: YamlNode)
    requires InOrder(cs, vs, reprs, items, ordered, taken, orderedReprs, picked, copies)
    requires |taken| < |items| && copy.Valid() && copy.Tree == items[|taken|]
    requires forall i {:trigger orderedReprs[i]} | 0 <= i < |orderedReprs| :: orderedReprs[i] !! copy.Repr
    ensures InOrder(cs, vs, reprs, items, ordered + [copy], taken + [None], orderedReprs + [copy.Repr], picked, copies + copy.Repr)
  {
    OriginCopy(orderedReprs, taken, reprs, picked, copies, copy.Repr);
    ForestPlus(ordered, orderedReprs, Ordered(vs, items, taken), copy);
    OrderedPlus(vs, items, taken, None);
    ReusedPlus(ordered, cs, taken, copy, None);
  }

  /** What one more source element adds to the order. */
  lemma OrderNext(cs: seq<YamlNode>, vs: seq<Node>, reprs: seq<set<object>>, items: seq<Node>, ordered: seq<YamlNode>,
                  taken: seq<Option<nat>>, orderedReprs: seq<set<object>>, picked: set<nat>, copies: set<object>,
                  m: Option<nat>, n: YamlNode)
    requires Forest(cs, reprs, vs) && InOrder(cs, vs, reprs, items, ordered, taken, orderedReprs, picked, copies)
    requires |taken| < |items|
    requires m.Some? ==> m.value < |cs| && m.value !in picked && reprs[m.value] !! copies && n == cs[m.value]
    requires m.None? ==> n.Valid() && n.Tree == items[|taken|]
    requires m.None? ==> forall i {:trigger orderedReprs[i]} | 0 <= i < |orderedReprs| :: orderedReprs[i] !! n.Repr
    ensures InOrder(cs, vs, reprs, items, ordered + [n], taken + [m], orderedReprs + [n.Repr], Picked(picked, m), Copied(copies, m, n.Repr))
  {
    if m.Some? {
      assert reprs[m.value] == cs[m.value].Repr;
      TakeNext(cs, vs, reprs, items, ordered, taken, orderedReprs, picked, copies, m.value);
    } else {
      CopyNext(cs, vs, reprs, items, ordered, taken, orderedReprs, picked, copies, n);
    }
  }

  ghost function Picked(picked: set<nat>, m: Option<nat>): set<nat> {
    if m.Some? then picked + {m.value} else picked
  }

  ghost function Copied(copies: set<object>, m: Option<nat>, more: set<object>): set<object> {
    if m.Some? then copies else copies + more
  }

  /** The element a source element is merged into: an unused original, or else a copy of itself. */
  method NextElement(cs: seq<YamlNode>, used: seq<bool>, target: YamlNode, ghost taken: seq<Option<nat>>,
                     ghost items: seq<Node>,
                     ghost reprs: seq<set<object>>, ghost vs: seq<Node>, ghost picked: set<nat>)
    returns (m: Option<nat>, n: YamlNode)
    requires Forest(cs, reprs, vs) && target.Valid() && Marks(used, picked, |cs|)
    requires items != [] && items[0] == target.Tree
    ensures taken + MatchAll(vs, picked, items) == (taken + [m]) + MatchAll(vs, Picked(picked, m), items[1..])
    ensures m.Some? ==> m.value < |cs| && m.value !in picked && n == cs[m.value]
    ensures m.None? ==> n.Valid() && fresh(n.Repr) && n.Tree == target.Tree
  {
    var idx := MatchSequenceElement(cs, used, target, reprs, vs, picked);
    MatchStep(vs, picked, items, taken);
    if idx >= 0 {
      return Some(idx), cs[idx];
    }
    n := DeepCopy(target);
    m := None;
  }

  /** Appends the element for one more source element. */
  method OrderOne(cs: seq<YamlNode>, used: seq<bool>, target: YamlNode, ordered: seq<YamlNode>, taken: seq<Option<nat>>,
                  ghost items: seq<Node>, ghost reprs: seq<set<object>>, ghost vs: seq<Node>,
                  ghost orderedReprs: seq<set<object>>, ghost picked: set<nat>, ghost copies: set<object>)
    returns (now: seq<bool>, nodes: seq<YamlNode>, matched: seq<Option<nat>>,
             ghost nodeReprs: seq<set<object>>, ghost chosen: set<nat>, ghost all: set<object>)
    requires Forest(cs, reprs, vs) && target.Valid() && Marks(used, picked, |cs|)
    requires InOrder(cs, vs, reprs, items, ordered, taken, orderedReprs, picked, copies)
    requires |taken| < |items| && target.Tree == items[|taken|]
    requires forall k {:trigger reprs[k]} | 0 <= k < |reprs| :: reprs[k] !! copies
    ensures InOrder(cs, vs, reprs, items, nodes, matched, nodeReprs, chosen, all) && fresh(all - copies)
    ensures Marks(now, chosen, |cs|) && |matched| == |taken| + 1
    ensures matched + MatchAll(vs, chosen, items[|taken| + 1..]) == taken + MatchAll(vs, picked, items[|taken|..])
  {
    ghost var rest := items[|taken|..];
    assert rest[0] == items[|taken|] && rest[1..] == items[|taken| + 1..];
    var m, n := NextElement(cs, used, target, taken, rest, reprs, vs, picked);
    OrderNext(cs, vs, reprs, items, ordered, taken, orderedReprs, picked, copies, m, n);
    nodes, matched, nodeReprs := ordered + [n], taken + [m], orderedReprs + [n.Repr];
    now := if m.Some? then used[m.value := true] else used;
    chosen, all := Picked(picked, m), Copied(copies, m, n.Repr);
  }

  /** The elements of a sequence in the order the source wants them, copies of the source's where there is none. */
  method OrderElements(cs: seq<YamlNode>, src: YamlNode, ghost reprs: seq<set<object>>, ghost vs: seq<Node>)
    returns (ordered: seq<YamlNode>, taken: seq<Option<nat>>, ghost orderedReprs: seq<set<object>>,
             ghost picked: set<nat>, ghost copies: set<object>)
    requires Forest(cs, reprs, vs) && src.Valid() && src.kind == SequenceNode
    ensures taken == MatchAll(vs, {}, src.Tree.items) && fresh(copies)
    ensures InOrder(cs, vs, reprs, src.Tree.items, ordered, taken, orderedReprs, picked, copies)
  {
    ghost var items := src.Tree.items;
    var used := seq(|cs|, _ => false);
    ordered, taken, orderedReprs, picked, copies := [], [], [], {}, {};
    assert items[0..] == items;
    for i := 0 to |src.content|
      invariant Marks(used, picked, |cs|) && |taken| == i && fresh(copies)
      invariant taken + MatchAll(vs, picked, items[i..]) == MatchAll(vs, {}, items)
      invariant InOrder(cs, vs, reprs, items, ordered, taken, orderedReprs, picked, copies)
    {
      used, ordered, taken, orderedReprs, picked, copies :=
        OrderOne(cs, used, src.content[i], ordered, taken, items, reprs, vs, orderedReprs, picked, copies);
    }
    assert taken + [] == taken;
  }

  method ReorderSequence(dst: YamlNode, src: YamlNode) returns (taken: seq<Option<nat>>)
    requires dst.Valid() && src.Valid() && dst.kind == src.kind == SequenceNode && dst !in src.Repr
    modifies dst
    ensures dst.Valid() && dst.kind == SequenceNode && fresh(dst.Repr - old(dst.Repr))
    ensures taken == MatchAll(old(dst.Tree.items), {}, src.Tree.items)
    ensures dst.Tree == Sequence(Ordered(old(dst.Tree.items), src.Tree.items, taken))
    ensures Reused(dst.content, old(dst.content), taken)
  {
    ghost var reprs, vs := Children(dst);
    ghost var repr := dst.Repr;
    var ordered;
    ghost var orderedReprs, picked, copies;
    ordered, taken, orderedReprs, picked, copies := OrderElements(dst.content, src, reprs, vs);
    OriginBelow(orderedReprs, taken, reprs, picked, copies, dst, repr);
    SetElements(dst, ordered, orderedReprs, Ordered(vs, src.Tree.items, taken), repr + copies);
  }

  /** Gives a sequence other elements. */
  method SetElements(n: YamlNode, ns: seq<YamlNode>, ghost reprs: seq<set<object>>, ghost vs: seq<Node>,
                     ghost repr: set<object>)
    requires n.kind == SequenceNode && Forest(ns, reprs, vs) && Below(reprs, n, repr)
    modifies n
    ensures n.Valid() && n.kind == SequenceNode && n.Repr == repr && n.content == ns && n.Tree == Sequence(vs)
  {
    n.content := ns;
    forall i | 0 <= i < |ns| ensures ns[i].Valid() && ns[i].Repr == reprs[i] && ns[i].Tree == vs[i] && n !in ns[i].Repr {
      assert n !in reprs[i];
    }
    Rebuild(n, repr, Sequence(vs));
  }

  // ---- merging ------------------------------------------------------------------

  /** Merges into a node so that it keeps its place; only its own nodes change. */
  method MergeNodePreserve(p: Policy, dst: YamlNode, src: YamlNode, path: Path)
    requires dst.Valid() && src.Valid() && dst.Repr !! src.Repr
    modifies dst.Repr
    ensures dst.Valid() && fresh(dst.Repr - old(dst.Repr))
    ensures dst.Tree == MergeNode(p, old(dst.Tree), src.Tree, path)
    decreases src.Tree, 2
  {
    if src.kind == MappingNode {
      BecomeMapping(dst, src);
      MergeMappingPreserve(p, dst, src, path);
      if p.prunesNested(path) { PruneMissingMapKeys(dst, src); }
    } else if src.kind == SequenceNode {
      if dst.kind == ScalarNode && dst.tag == "!!null" && |src.content| == 0 { return; }
      BecomeSequence(dst);
      var _ := MergeSequence(p, dst, src, path);
    } else {
      BecomeScalar(dst, src.tag, src.text);
    }
  }

  /** A node that is no mapping becomes a copy of one. */
  method BecomeMapping(n: YamlNode, src: YamlNode)
    requires n.Valid() && src.Valid() && src.kind == MappingNode && n.Repr !! src.Repr
    modifies n
    ensures n.Valid() && fresh(n.Repr - old(n.Repr)) && n.Repr !! src.Repr
    ensures n.Tree == if old(n.Tree).Mapping? then old(n.Tree) else src.Tree
  {
    if n.kind != MappingNode { Overwrite(n, src); }
  }

  /** A node that is no sequence becomes an empty one. */
  method BecomeSequence(n: YamlNode)
    requires n.Valid()
    modifies n
    ensures n.Valid() && n.Repr == old(n.Repr) && n.kind == SequenceNode
    ensures n.Tree == if old(n.Tree).Sequence? then old(n.Tree) else Sequence([])
  {
    if n.kind == SequenceNode { return; }
    n.kind, n.tag, n.content := SequenceNode, "!!seq", [];
    Rebuild(n, n.Repr, Sequence([]));
  }

  /** The node says what the scalar says; whatever hangs below it no longer counts. */
  method BecomeScalar(n: YamlNode, tag: string, text: string)
    requires n.Valid()
    modifies n
    ensures n.Valid() && n.Repr == old(n.Repr) && n.Tree == Scalar(tag, text)
  {
    n.kind, n.tag, n.text := ScalarNode, tag, text;
    Rebuild(n, n.Repr, Scalar(tag, text));
  }

  /** Merges one child of a mapping. */
  method MergeInChild(p: Policy, dst: YamlNode, idx: int, src: YamlNode, child: Path)
    requires dst.Valid() && dst.kind == MappingNode && 0 <= idx < |dst.content|
    requires src.Valid() && dst.Repr !! src.Repr
    modifies dst.Repr
    ensures dst.Valid() && fresh(dst.Repr - old(dst.Repr)) && dst.keys == old(dst.keys) && dst.content == old(dst.content)
    ensures var e := old(dst.Tree.entries[idx]);
      dst.Tree == Mapping(old(dst.Tree.entries)[idx := Entry(e.key, MergeNode(p, e.value, src.Tree, child))])
    decreases src.Tree, 3
  {
    ghost var es := dst.Tree.entries;
    MergeNodePreserve(p, dst.content[idx], src, child);
    forall i | 0 <= i < |dst.content| && i != idx
      ensures dst.content[i].Valid() && dst.content[i].Repr == old(dst.content[i].Repr) && dst.content[i].Tree == old(dst.content[i].Tree)
    {
      assert old(dst.content[i].Valid());
      assert dst.content[i].Repr !! old(dst.content[idx].Repr);
    }
    Refresh(dst, idx, es);
  }

  /** Appends a pruned copy of a value, unless it is a default. */
  method AppendNew(p: Policy, dst: YamlNode, key: string, src: YamlNode, child: Path)
    requires dst.Valid() && dst.kind == MappingNode && src.Valid() && dst.Repr !! src.Repr
    modifies dst
    ensures dst.Valid() && fresh(dst.Repr - old(dst.Repr)) && dst.kind == MappingNode
    ensures old(dst.keys) <= dst.keys && old(dst.content) <= dst.content
    ensures var v := PruneNew(p, child, src.Tree);
      dst.Tree == if p.knownDefault(child, v) then old(dst.Tree) else Mapping(old(dst.Tree.entries) + [Entry(key, v)])
  {
    var candidate := DeepCopy(src);
    PruneKnownDefaults(p, child, candidate);
    var v := LayoutRewriter.Read(candidate);
    if !p.knownDefault(child, v) { AppendChild(dst, key, candidate); }
  }

  method AppendChild(n: YamlNode, key: string, c: YamlNode)
    requires n.Valid() && n.kind == MappingNode && c.Valid() && n.Repr !! c.Repr
    modifies n
    ensures n.Valid() && n.Repr == old(n.Repr) + c.Repr && n.kind == MappingNode && c.Tree == old(c.Tree)
    ensures n.keys == old(n.keys) + [key] && n.content == old(n.content) + [c]
    ensures n.Tree == Mapping(old(n.Tree.entries) + [Entry(key, c.Tree)])
  {
    n.keys, n.content := n.keys + [key], n.content + [c];
    Rebuild(n, n.Repr + c.Repr, Mapping(n.Tree.entries + [Entry(key, c.Tree)]));
  }

  /** Merges one source entry into a mapping. */
  method MergeKey(p: Policy, dst: YamlNode, key: string, src: YamlNode, path: Path)
    requires dst.Valid() && dst.kind == MappingNode && src.Valid() && dst.Repr !! src.Repr
    modifies dst.Repr
    ensures dst.Valid() && fresh(dst.Repr - old(dst.Repr)) && dst.kind == MappingNode
    ensures old(dst.keys) <= dst.keys && old(dst.content) <= dst.content
    ensures dst.Tree == Mapping(MergeStep(p, old(dst.Tree.entries), Entry(key, src.Tree), path))
    decreases src.Tree, 4
  {
    var idx := dst.FindMapKeyIndex(key);
    var child := path + [key];
    if p.pluginConfigs(child) { return; }
    if idx >= 0 {
      PutAtFirst(dst.Tree.entries, key, idx, MergeNode(p, dst.Tree.entries[idx].value, src.Tree, child));
      MergeInChild(p, dst, idx, src, child);
    } else {
      AppendNew(p, dst, key, src, child);
    }
  }

  lemma EntryMerged(p: Policy, dst: seq<Entry>, src: seq<Entry>, i: nat, path: Path)
    requires i < |src|
    ensures MergeEntries(p, MergeStep(p, dst, src[i], path), src[i + 1..], path) == MergeEntries(p, dst, src[i..], path)
  {
    assert src[i..] == [src[i]] + src[i + 1..];
  }

  lemma EntryFacts(n: YamlNode, i: nat)
    requires n.Valid() && n.Tree.Mapping? && i < |n.content|
    ensures n.content[i].Valid() && n.content[i].Repr <= n.Repr && i < |n.keys|
    ensures n.Tree.entries[i] == Entry(n.keys[i], n.content[i].Tree) && n.content[i].Tree < n.Tree
  {
  }

  /** Merges every source entry; the keys and the value nodes that were there stay where they are. */
  method MergeMappingPreserve(p: Policy, dst: YamlNode, src: YamlNode, path: Path)
    requires dst.Valid() && src.Valid() && dst.Repr !! src.Repr
    modifies dst.Repr
    ensures dst.Valid() && fresh(dst.Repr - old(dst.Repr))
    ensures dst.Tree == if old(dst.Tree).Mapping? && src.Tree.Mapping?
      then Mapping(MergeEntries(p, old(dst.Tree).entries, src.Tree.entries, path)) else src.Tree
    ensures old(dst.kind) == src.kind == MappingNode ==> old(dst.keys) <= dst.keys && old(dst.content) <= dst.content
    decreases src.Tree, 1
  {
    if dst.kind != MappingNode || src.kind != MappingNode {
      Overwrite(dst, src);
      return;
    }
    ghost var es := src.Tree.entries;
    assert es[0..] == es && es[|es|..] == [];
    for i := 0 to |src.content|
      invariant dst.Valid() && fresh(dst.Repr - old(dst.Repr)) && dst.kind == MappingNode
      invariant src.Valid() && src.Tree == Mapping(es) && src.Repr == old(src.Repr) && src.content == old(src.content)
      invariant old(dst.keys) <= dst.keys && old(dst.content) <= dst.content
      invariant MergeEntries(p, dst.Tree.entries, es[i..], path) == MergeEntries(p, old(dst.Tree.entries), es, path)
    {
      EntryMerged(p, dst.Tree.entries, es, i, path);
      EntryFacts(src, i);
      MergeKey(p, dst, src.keys[i], src.content[i], path);
    }
  }

  /** Merges into one of several elements and removes its stale keys. */
  method MergeItem(p: Policy, cs: seq<YamlNode>, i: nat, src: YamlNode, path: Path, ghost reprs: seq<set<object>>,
                   ghost vs: seq<Node>)
    returns (ghost after: seq<set<object>>)
    requires Forest(cs, reprs, vs) && i < |cs| && src.Valid() && reprs[i] !! src.Repr
    modifies reprs[i]
    ensures |after| == |reprs| && after == reprs[i := after[i]] && fresh(after[i] - reprs[i])
    ensures Forest(cs, after, vs[i := MergeElement(p, vs[i], src.Tree, path)])
    decreases src.Tree, 3
  {
    assert cs[i].Repr == reprs[i];
    MergeNodePreserve(p, cs[i], src, path);
    PruneMissingMapKeys(cs[i], src);
    after := reprs[i := cs[i].Repr];
    forall j | 0 <= j < |cs| && j != i ensures cs[j].Valid() && cs[j].Repr == reprs[j] && cs[j].Tree == vs[j] && reprs[j] !! after[i] {
      assert reprs[j] !! reprs[i];
    }
  }

  lemma MergedElements(p: Policy, before: seq<Node>, src: seq<Node>, path: Path, i: nat)
    requires i < |src|
    ensures var taken := MatchAll(before, {}, src);
      MergeItems(p, before, src, path)[i] ==
      if taken[i].Some? then MergeElement(p, Ordered(before, src, taken)[i], src[i], path) else Ordered(before, src, taken)[i]
  {
  }

  lemma BelowStep(reprs: seq<set<object>>, after: seq<set<object>>, i: nat, n: YamlNode, repr: set<object>)
    requires Below(reprs, n, repr) && i < |reprs| == |after| && after == reprs[i := after[i]] && n !in after[i]
    ensures Below(after, n, repr + after[i])
  {
    forall j | 0 <= j < |after| ensures n !in after[j] && after[j] <= repr + after[i] {
      assert n !in reprs[j];
    }
  }

  /** How far the elements are merged. */
  ghost predicate MergedUpTo(i: nat, vs: seq<Node>, ordered: seq<Node>, merged: seq<Node>) {
    && i <= |vs| == |ordered| == |merged|
    && vs == merged[..i] + ordered[i..]
  }

  /** Merges one element where it stands, if it was taken over. */
  method MergeAt(p: Policy, dst: YamlNode, i: nat, taken: bool, src: YamlNode, path: Path,
                 ghost reprs: seq<set<object>>, ghost vs: seq<Node>, ghost repr: set<object>)
    returns (ghost after: seq<set<object>>, ghost more: set<object>)
    requires Forest(dst.content, reprs, vs) && Below(reprs, dst, repr) && i < |dst.content|
    requires src.Valid() && repr !! src.Repr
    modifies reprs[i]
    ensures Forest(dst.content, after, if taken then vs[i := MergeElement(p, vs[i], src.Tree, path)] else vs)
    ensures Below(after, dst, repr + more) && fresh(more - repr)
    decreases src.Tree, 4
  {
    after, more := reprs, {};
    if !taken { return; }
    after := MergeItem(p, dst.content, i, src, path, reprs, vs);
    more := after[i];
    BelowStep(reprs, after, i, dst, repr);
  }

  /** Merges a sequence element by element; the elements taken over keep their nodes. */
  method MergeSequence(p: Policy, dst: YamlNode, src: YamlNode, path: Path) returns (taken: seq<Option<nat>>)
    requires dst.Valid() && src.Valid() && dst.kind == src.kind == SequenceNode && dst.Repr !! src.Repr
    modifies dst.Repr
    ensures dst.Valid() && fresh(dst.Repr - old(dst.Repr))
    ensures dst.Tree == Sequence(MergeItems(p, old(dst.Tree.items), src.Tree.items, path))
    ensures taken == MatchAll(old(dst.Tree.items), {}, src.Tree.items) && Reused(dst.content, old(dst.content), taken)
    decreases src.Tree, 1
  {
    ghost var before := dst.Tree.items;
    taken := ReorderSequence(dst, src);
    MergeTaken(p, dst, src, path, taken, before);
  }

  /** Merges the elements taken over; the others are copies already. */
  method MergeTaken(p: Policy, dst: YamlNode, src: YamlNode, path: Path, taken: seq<Option<nat>>, ghost before: seq<Node>)
    requires dst.Valid() && src.Valid() && dst.kind == src.kind == SequenceNode && dst.Repr !! src.Repr
    requires taken == MatchAll(before, {}, src.Tree.items) && dst.Tree == Sequence(Ordered(before, src.Tree.items, taken))
    modifies dst.Repr
    ensures dst.Valid() && fresh(dst.Repr - old(dst.Repr)) && dst.content == old(dst.content)
    ensures dst.Tree == Sequence(MergeItems(p, before, src.Tree.items, path))
    decreases src.Tree, 0
  {
    ghost var reprs, vs := Children(dst);
    ghost var items, ordered, repr := src.Tree.items, vs, dst.Repr;
    ghost var merged := MergeItems(p, before, items, path);
    for i := 0 to |src.content|
      invariant dst.kind == SequenceNode && dst.content == old(dst.content)
      invariant Below(reprs, dst, repr) && fresh(repr - old(dst.Repr))
      invariant Forest(dst.content, reprs, vs)
      invariant src.Valid() && src.Tree == Sequence(items) && src.Repr == old(src.Repr) && src.content == old(src.content)
      invariant MergedUpTo(i, vs, ordered, merged)
    {
      assert reprs[i] <= repr;
      ghost var more;
      reprs, vs, more := MergeNext(p, dst, src, i, path, taken, before, reprs, vs, repr);
      repr := repr + more;
    }
    assert vs == merged;
    SetElements(dst, dst.content, reprs, vs, repr);
  }

  /** Merges the next element, if it was taken over. */
  method MergeNext(p: Policy, dst: YamlNode, src: YamlNode, i: nat, path: Path, taken: seq<Option<nat>>,
                   ghost before: seq<Node>, ghost reprs: seq<set<object>>, ghost vs: seq<Node>, ghost repr: set<object>)
    returns (ghost after: seq<set<object>>, ghost next: seq<Node>, ghost more: set<object>)
    requires Forest(dst.content, reprs, vs) && Below(reprs, dst, repr) && i < |dst.content|
    requires src.Valid() && src.kind == SequenceNode && i < |src.content| && repr !! src.Repr
    requires taken == MatchAll(before, {}, src.Tree.items)
    requires MergedUpTo(i, vs, Ordered(before, src.Tree.items, taken), MergeItems(p, before, src.Tree.items, path))
    modifies reprs[i]
    ensures Forest(dst.content, after, next) && Below(after, dst, repr + more) && fresh(more - repr)
    ensures MergedUpTo(i + 1, next, Ordered(before, old(src.Tree.items), taken), MergeItems(p, before, old(src.Tree.items), path))
    decreases src.Tree, 0, 0
  {
    ghost var items := src.Tree.items;
    ElementMerged(p, before, items, path, i, vs);
    ChildFacts(src, i);
    next := if taken[i].Some? then vs[i := MergeElement(p, vs[i], items[i], path)] else vs;
    after, more := MergeAt(p, dst, i, taken[i].Some?, src.content[i], path, reprs, vs, repr);
  }

  /** One more element merged, or left because it is a copy. */
  lemma ElementMerged(p: Policy, before: seq<Node>, src: seq<Node>, path: Path, i: nat, vs: seq<Node>)
    requires i < |src|
    requires MergedUpTo(i, vs, Ordered(before, src, MatchAll(before, {}, src)), MergeItems(p, before, src, path))
    ensures var taken := MatchAll(before, {}, src);
      i < |vs| && MergedUpTo(i + 1, if taken[i].Some? then vs[i := MergeElement(p, vs[i], src[i], path)] else vs,
                 Ordered(before, src, taken), MergeItems(p, before, src, path))
  {
    var ordered, merged := Ordered(before, src, MatchAll(before, {}, src)), MergeItems(p, before, src, path);
    MergedElements(p, before, src, path, i);
    MergedStep(i, vs, ordered, merged);
    assert merged[i] == vs[i] ==> vs[i := merged[i]] == vs;
  }

  lemma ChildFacts(n: YamlNode, i: nat)
    requires n.Valid() && n.Tree.Sequence? && i < |n.content|
    ensures n.content[i].Valid() && n.content[i].Repr <= n.Repr && n.content[i].Tree == n.Tree.items[i]
    ensures n.content[i].Tree < n.Tree
  {
  }

  lemma MergedStep(i: nat, vs: seq<Node>, ordered: seq<Node>, merged: seq<Node>)
    requires MergedUpTo(i, vs, ordered, merged) && i < |vs|
    ensures vs[i] == ordered[i] && MergedUpTo(i + 1, vs[i := merged[i]], ordered, merged)
  {
  }
}
