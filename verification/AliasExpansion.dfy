/**
 Expanding aliases and YAML merge keys into a plain tree.

 Models CLIProxyAPI/internal/config/config_v8.go, expandConfigAliases.  The parsed document
 is a store of nodes that may share and alias each other; decoding it first has rejected
 alias cycles, and that is what Acyclic states.
 */
module AliasExpansion {
  import opened Wrappers
  import opened Sequences

  type Id = nat

  datatype Ref = Ref(merge: bool, key: string, target: Id)

  datatype Rec =
    | ScalarRec(tag: string, text: string)
    | SeqRec(items: seq<Id>)
    | MapRec(pairs: seq<Ref>)
    | AliasRec(target: Id)

  type Store = map<Id, Rec>
  type Rank = map<Id, nat>

  datatype Pair = Pair(merge: bool, key: string, value: Tree)

  datatype Tree =
    | Leaf(tag: string, text: string)
    | List(items: seq<Tree>)
    | Dict(pairs: seq<Pair>)

  /** Every reference of a node stays in the store and leads to a lower rank. */
  ghost predicate Descends(s: Store, rank: Rank, id: Id)
    requires id in s
  {
    id in rank && match s[id]
    case ScalarRec(_, _) => true
    case SeqRec(items) => forall i | 0 <= i < |items| :: Below(s, rank, items[i], id)
    case MapRec(pairs) => forall i | 0 <= i < |pairs| :: Below(s, rank, pairs[i].target, id)
    case AliasRec(t) => Below(s, rank, t, id)
  }

  ghost predicate Below(s: Store, rank: Rank, lower: Id, id: Id) {
    lower in s && lower in rank && id in rank && rank[lower] < rank[id]
  }

  ghost predicate Acyclic(s: Store, rank: Rank) {
    forall id | id in s :: Descends(s, rank, id)
  }

  // ---- merge keys -----------------------------------------------------------

  /** Value of the first pair with the key, whatever its tag. */
  function Find(ps: seq<Pair>, key: string): Option<Tree> {
    if ps == [] then None else if ps[0].key == key then Some(ps[0].value) else Find(ps[1..], key)
  }

  /** The pairs a merge value contributes, in order. */
  function SourcePairs(v: Tree): seq<Pair> {
    match v
    case Leaf(_, _) => []
    case Dict(ps) => ps
    case List(items) => ItemPairs(items)
  }

  function ItemPairs(items: seq<Tree>): seq<Pair> {
    if items == [] then []
    else (if items[0].Dict? then items[0].pairs else []) + ItemPairs(items[1..])
  }

  function AddMissing(ps: seq<Pair>, extra: seq<Pair>): seq<Pair>
    decreases |extra|
  {
    if extra == [] then ps
    else AddMissing(if Find(ps, extra[0].key).Some? then ps else ps + [extra[0]], extra[1..])
  }

  function MergeCount(ps: seq<Pair>): nat {
    if ps == [] then 0 else (if ps[0].merge then 1 else 0) + MergeCount(ps[1..])
  }

  ghost predicate NoMerge(ps: seq<Pair>) {
    forall i | 0 <= i < |ps| :: !ps[i].merge
  }

  /** A merge contributes only plain pairs: its sources are expanded before it. */
  ghost predicate PlainSources(ps: seq<Pair>) {
    forall i | 0 <= i < |ps| && ps[i].merge :: NoMerge(SourcePairs(ps[i].value))
  }

  /** Replaces merge pairs from position i on by the pairs they contribute. */
  function MergeFrom(done: seq<Pair>, todo: seq<Pair>): seq<Pair>
    requires PlainSources(todo)
    decreases MergeCount(todo), |todo|
  {
    if todo == [] then done
    else if !todo[0].merge then MergeFrom(done + [todo[0]], todo[1..])
    else
      var rest := AddMissing(done + todo[1..], SourcePairs(todo[0].value));
      AddMissingSplit(done, todo[1..], SourcePairs(todo[0].value));
      MergeFrom(rest[..|done|], rest[|done|..])
  }

  lemma MergeCountConcat(a: seq<Pair>, b: seq<Pair>)
    ensures MergeCount(a + b) == MergeCount(a) + MergeCount(b)
  {
    if a == [] { assert a + b == b; } else { assert (a + b)[1..] == a[1..] + b; }
  }

  lemma NoMergeCount(ps: seq<Pair>)
    requires NoMerge(ps)
    ensures MergeCount(ps) == 0
  {
  }

  /** Adding missing pairs only appends, and appends plain pairs. */
  lemma {:induction false} AddMissingAppends(ps: seq<Pair>, extra: seq<Pair>) returns (added: seq<Pair>)
    requires NoMerge(extra)
    ensures AddMissing(ps, extra) == ps + added && NoMerge(added)
    decreases |extra|
  {
    if extra == [] {
      added := [];
    } else if Find(ps, extra[0].key).Some? {
      added := AddMissingAppends(ps, extra[1..]);
    } else {
      var more := AddMissingAppends(ps + [extra[0]], extra[1..]);
      added := [extra[0]] + more;
      assert ps + [extra[0]] + more == ps + added;
    }
  }

  lemma AddMissingSplit(done: seq<Pair>, todo: seq<Pair>, extra: seq<Pair>)
    requires NoMerge(extra) && PlainSources(todo)
    ensures var r := AddMissing(done + todo, extra);
      && |done| <= |r| && r[..|done|] == done && PlainSources(r[|done|..])
      && MergeCount(r[|done|..]) == MergeCount(todo)
  {
    var added := AddMissingAppends(done + todo, extra);
    Regroup(done, todo, added);
    Halves(done, todo + added);
    PlainAppend(todo, added);
    MergeCountConcat(todo, added);
    NoMergeCount(added);
  }

  lemma Halves(a: seq<Pair>, b: seq<Pair>)
    ensures (a + b)[..|a|] == a && (a + b)[|a|..] == b
  {
  }

  lemma PlainAppend(a: seq<Pair>, b: seq<Pair>)
    requires PlainSources(a) && NoMerge(b)
    ensures PlainSources(a + b)
  {
    forall i | 0 <= i < |a + b| && (a + b)[i].merge ensures NoMerge(SourcePairs((a + b)[i].value)) {
      assert i < |a|;
    }
  }

  /** No mapping anywhere in the tree has a merge key left. */
  ghost predicate Clean(t: Tree) {
    match t
    case Leaf(_, _) => true
    case List(items) => forall i | 0 <= i < |items| :: Clean(items[i])
    case Dict(ps) => NoMerge(ps) && CleanValues(ps)
  }

  ghost predicate CleanValues(ps: seq<Pair>) {
    forall i | 0 <= i < |ps| :: Clean(ps[i].value)
  }

  lemma CleanItems(items: seq<Tree>)
    requires forall i | 0 <= i < |items| :: Clean(items[i])
    ensures NoMerge(ItemPairs(items)) && CleanValues(ItemPairs(items))
  {
    if items != [] {
      CleanItems(items[1..]);
      var first := if items[0].Dict? then items[0].pairs else [];
      var rest := ItemPairs(items[1..]);
      assert Clean(items[0]);
      var whole := first + rest;
      forall i | 0 <= i < |whole| ensures Clean(whole[i].value) && !whole[i].merge {
        if i >= |first| { assert whole[i] == rest[i - |first|]; }
      }
    }
  }

  lemma CleanSources(ps: seq<Pair>)
    requires CleanValues(ps)
    ensures PlainSources(ps)
    ensures forall i | 0 <= i < |ps| :: CleanValues(SourcePairs(ps[i].value))
  {
    forall i | 0 <= i < |ps| ensures NoMerge(SourcePairs(ps[i].value)) && CleanValues(SourcePairs(ps[i].value)) {
      if ps[i].value.List? { CleanItems(ps[i].value.items); }
    }
  }

  lemma AddMissingClean(ps: seq<Pair>, extra: seq<Pair>)
    requires CleanValues(ps) && CleanValues(extra)
    ensures CleanValues(AddMissing(ps, extra))
    decreases |extra|
  {
    if extra != [] {
      AddMissingClean(if Find(ps, extra[0].key).Some? then ps else ps + [extra[0]], extra[1..]);
    }
  }

  /** What is left has no merge key, and values stay clean. */
  lemma {:induction false} MergeFromClean(done: seq<Pair>, todo: seq<Pair>)
    requires NoMerge(done) && CleanValues(done) && CleanValues(todo) && PlainSources(todo)
    ensures NoMerge(MergeFrom(done, todo)) && CleanValues(MergeFrom(done, todo))
    decreases MergeCount(todo), |todo|
  {
    if todo != [] {
      if !todo[0].merge {
        MergeFromClean(done + [todo[0]], todo[1..]);
      } else {
        CleanSources(todo);
        var extra := SourcePairs(todo[0].value);
        var rest := AddMissing(done + todo[1..], extra);
        AddMissingSplit(done, todo[1..], extra);
        AddMissingClean(done + todo[1..], extra);
        MergeFromClean(rest[..|done|], rest[|done|..]);
      }
    }
  }

  /** The pairs of all merges, in document order. */
  function AllSources(ps: seq<Pair>): seq<Pair> {
    if ps == [] then [] else (if ps[0].merge then SourcePairs(ps[0].value) else []) + AllSources(ps[1..])
  }

  lemma FindConcat(a: seq<Pair>, b: seq<Pair>, key: string)
    ensures Find(a + b, key) == if Find(a, key).Some? then Find(a, key) else Find(b, key)
  {
    if a == [] { assert a + b == b; } else { assert (a + b)[1..] == a[1..] + b; }
  }

  lemma {:induction false} AddMissingFind(ps: seq<Pair>, extra: seq<Pair>, key: string)
    ensures Find(AddMissing(ps, extra), key) == if Find(ps, key).Some? then Find(ps, key) else Find(extra, key)
    decreases |extra|
  {
    if extra != [] {
      FindConcat(ps, [extra[0]], key);
      assert Find([extra[0]][1..], key).None?;
      AddMissingFind(if Find(ps, extra[0].key).Some? then ps else ps + [extra[0]], extra[1..], key);
    }
  }

  lemma AllSourcesConcat(a: seq<Pair>, b: seq<Pair>)
    requires NoMerge(b)
    ensures AllSources(a + b) == AllSources(a)
  {
    if a == [] {
      assert a + b == b;
      if b != [] { AllSourcesConcat(a, b[1..]); assert a + b[1..] == b[1..]; }
    } else {
      assert (a + b)[1..] == a[1..] + b;
      AllSourcesConcat(a[1..], b);
    }
  }

  /** An explicit pair wins; otherwise the first merge source in order that has the key. */
  lemma {:induction false} MergeFromFind(done: seq<Pair>, todo: seq<Pair>, key: string)
    requires PlainSources(todo) && forall i | 0 <= i < |todo| && todo[i].merge :: todo[i].key != key
    ensures Find(MergeFrom(done, todo), key) ==
      if Find(done + todo, key).Some? then Find(done + todo, key) else Find(AllSources(todo), key)
    decreases MergeCount(todo), |todo|
  {
    if todo == [] {
      assert done + todo == done;
    } else if !todo[0].merge {
      assert done + [todo[0]] + todo[1..] == done + todo;
      assert AllSources(todo) == AllSources(todo[1..]);
      MergeFromFind(done + [todo[0]], todo[1..], key);
    } else {
      var extra := SourcePairs(todo[0].value);
      var rest := AddMissing(done + todo[1..], extra);
      AddMissingSplit(done, todo[1..], extra);
      var added := AddMissingAppends(done + todo[1..], extra);
      assert rest[|done|..] == todo[1..] + added;
      MergeFromFind(done, rest[|done|..], key);
      assert done + rest[|done|..] == rest;
      AddMissingFind(done + todo[1..], extra, key);
      AllSourcesConcat(todo[1..], added);
      FindConcat(extra, AllSources(todo[1..]), key);
      FindConcat(done, todo, key);
      FindConcat(done, todo[1..], key);
    }
  }

  /** The explicit pairs stay first and in order. */
  lemma {:induction false} MergeFromKeepsOrder(done: seq<Pair>, todo: seq<Pair>)
    requires PlainSources(todo)
    ensures done + Explicit(todo) <= MergeFrom(done, todo)
    decreases MergeCount(todo), |todo|
  {
    var whole := MergeFrom(done, todo);
    if todo == [] {
      assert done + [] == done;
    } else if !todo[0].merge {
      MergeFromKeepsOrder(done + [todo[0]], todo[1..]);
      Regroup(done, [todo[0]], Explicit(todo[1..]));
    } else {
      var added := MergeStep(done, todo);
      MergeFromKeepsOrder(done, todo[1..] + added);
      ExplicitConcat(todo[1..], added);
      Regroup(done, Explicit(todo[1..]), Explicit(added));
      PrefixTransitive(done + Explicit(todo), done + Explicit(todo) + Explicit(added), whole);
    }
  }

  lemma Regroup(a: seq<Pair>, b: seq<Pair>, c: seq<Pair>)
    ensures a + b + c == a + (b + c)
  {
  }

  /** One merge pair is replaced by plain pairs at the end. */
  lemma MergeStep(done: seq<Pair>, todo: seq<Pair>) returns (added: seq<Pair>)
    requires PlainSources(todo) && todo != [] && todo[0].merge
    ensures PlainSources(todo[1..] + added) && MergeCount(todo[1..] + added) < MergeCount(todo)
    ensures MergeFrom(done, todo) == MergeFrom(done, todo[1..] + added)
    ensures Explicit(todo) == Explicit(todo[1..])
  {
    var extra := SourcePairs(todo[0].value);
    var rest := AddMissing(done + todo[1..], extra);
    AddMissingSplit(done, todo[1..], extra);
    added := AddMissingAppends(done + todo[1..], extra);
    assert rest[|done|..] == todo[1..] + added;
  }

  function Explicit(ps: seq<Pair>): seq<Pair> {
    if ps == [] then [] else (if ps[0].merge then [] else [ps[0]]) + Explicit(ps[1..])
  }

  lemma {:induction false} ExplicitConcat(a: seq<Pair>, b: seq<Pair>)
    ensures Explicit(a + b) == Explicit(a) + Explicit(b)
    decreases |a|
  {
    if a == [] {
      assert a + b == b;
    } else {
      assert (a + b)[1..] == a[1..] + b;
      ExplicitConcat(a[1..], b);
      Regroup(if a[0].merge then [] else [a[0]], Explicit(a[1..]), Explicit(b));
    }
  }

  // ---- expansion --------------------------------------------------------------

  /** The plain tree below a node. */
  function Expand(s: Store, ghost rank: Rank, id: Id): (t: Tree)
    requires Acyclic(s, rank) && id in s
    ensures Clean(t)
    decreases rank[id], 1
  {
    match s[id]
    case AliasRec(t) => Expand(s, rank, t)
    case ScalarRec(tag, text) => Leaf(tag, text)
    case SeqRec(items) => List(seq(|items|, i requires 0 <= i < |items| => Expand(s, rank, items[i])))
    case MapRec(pairs) =>
      var ps := ExpandPairs(s, rank, id);
      CleanSources(ps);
      MergeFromClean([], ps);
      Dict(MergeFrom([], ps))
  }

  /** The pairs of a mapping with expanded values, merges not yet applied. */
  function ExpandPairs(s: Store, ghost rank: Rank, id: Id): (ps: seq<Pair>)
    requires Acyclic(s, rank) && id in s && s[id].MapRec?
    ensures CleanValues(ps)
    decreases rank[id], 0
  {
    var pairs := s[id].pairs;
    seq(|pairs|, i requires 0 <= i < |pairs| => Pair(pairs[i].merge, pairs[i].key, Expand(s, rank, pairs[i].target)))
  }

  // ---- reading through aliases and merges --------------------------------------

  /** The node behind a chain of aliases. */
  function Deref(s: Store, ghost rank: Rank, id: Id): (r: Id)
    requires Acyclic(s, rank) && id in s
    ensures r in s && !s[r].AliasRec? && r in rank && rank[r] <= rank[id]
    decreases rank[id]
  {
    if s[id].AliasRec? then Deref(s, rank, s[id].target) else id
  }

  /** The node a key of a mapping stands for, by the rules for merge keys: the mapping's own
      pair first, then the merged mappings in order. */
  function ReadKey(s: Store, ghost rank: Rank, id: Id, key: string): (r: Option<Id>)
    requires Acyclic(s, rank) && id in s
    ensures r.Some? ==> r.value in s
    decreases rank[id], 3, 0
  {
    var n := Deref(s, rank, id);
    if !s[n].MapRec? then None
    else
      var own := OwnKey(s[n].pairs, key);
      if own.Some? then OwnKeyIn(s, rank, n, key); own else ReadMerges(s, rank, n, s[n].pairs, key)
  }

  function OwnKey(pairs: seq<Ref>, key: string): Option<Id> {
    if pairs == [] then None
    else if pairs[0].key == key then Some(pairs[0].target)
    else OwnKey(pairs[1..], key)
  }

  lemma OwnKeyIs(pairs: seq<Ref>, key: string)
    ensures OwnKey(pairs, key).Some? ==> exists i :: 0 <= i < |pairs| && OwnKey(pairs, key).value == pairs[i].target
  {
    if pairs != [] && pairs[0].key != key {
      OwnKeyIs(pairs[1..], key);
      if OwnKey(pairs[1..], key).Some? {
        var i :| 0 <= i < |pairs[1..]| && OwnKey(pairs[1..], key).value == pairs[1..][i].target;
        assert pairs[i + 1].target == OwnKey(pairs, key).value;
      }
    }
  }

  lemma OwnKeyIn(s: Store, rank: Rank, n: Id, key: string)
    requires Acyclic(s, rank) && n in s && s[n].MapRec? && OwnKey(s[n].pairs, key).Some?
    ensures OwnKey(s[n].pairs, key).value in s
  {
    OwnKeyIs(s[n].pairs, key);
  }

  function ReadMerges(s: Store, ghost rank: Rank, n: Id, pairs: seq<Ref>, key: string): (r: Option<Id>)
    requires Acyclic(s, rank) && n in s && n in rank
    requires forall i | 0 <= i < |pairs| :: Below(s, rank, pairs[i].target, n)
    ensures r.Some? ==> r.value in s
    decreases rank[n], 2, |pairs|
  {
    if pairs == [] then None
    else
      assert Below(s, rank, pairs[0].target, n);
      var here := if pairs[0].merge then ReadSource(s, rank, pairs[0].target, key) else None;
      if here.Some? then here else ReadMerges(s, rank, n, pairs[1..], key)
  }

  /** A merge value is a mapping or a list of mappings. */
  function ReadSource(s: Store, ghost rank: Rank, id: Id, key: string): (r: Option<Id>)
    requires Acyclic(s, rank) && id in s
    ensures r.Some? ==> r.value in s
    decreases rank[id], 5, 0
  {
    var m := Deref(s, rank, id);
    if s[m].SeqRec? then ReadItems(s, rank, m, s[m].items, key) else ReadKey(s, rank, m, key)
  }

  function ReadItems(s: Store, ghost rank: Rank, n: Id, items: seq<Id>, key: string): (r: Option<Id>)
    requires Acyclic(s, rank) && n in s && n in rank
    requires forall i | 0 <= i < |items| :: Below(s, rank, items[i], n)
    ensures r.Some? ==> r.value in s
    decreases rank[n], 4, |items|
  {
    if items == [] then None
    else
      assert Below(s, rank, items[0], n);
      var here := ReadKey(s, rank, items[0], key);
      if here.Some? then here else ReadItems(s, rank, n, items[1..], key)
  }

  // ---- expansion preserves what is read ------------------------------------------

  function TreeChild(t: Tree, key: string): Option<Tree> {
    if t.Dict? then Find(t.pairs, key) else None
  }

  ghost function Expanded(s: Store, rank: Rank, o: Option<Id>): Option<Tree>
    requires Acyclic(s, rank) && (o.Some? ==> o.value in s)
  {
    if o.Some? then Some(Expand(s, rank, o.value)) else None
  }

  /** No merge pair is spelled like the key: true of every key but the merge indicator itself. */
  ghost predicate NotMergeText(s: Store, key: string) {
    forall id | id in s && s[id].MapRec? :: forall i | 0 <= i < |s[id].pairs| && s[id].pairs[i].merge :: s[id].pairs[i].key != key
  }

  lemma ExpandDeref(s: Store, rank: Rank, id: Id)
    requires Acyclic(s, rank) && id in s
    ensures Expand(s, rank, id) == Expand(s, rank, Deref(s, rank, id))
    decreases rank[id]
  {
    if s[id].AliasRec? { ExpandDeref(s, rank, s[id].target); }
  }

  ghost predicate PairsOf(s: Store, rank: Rank, pairs: seq<Ref>, ps: seq<Pair>)
    requires Acyclic(s, rank)
  {
    |ps| == |pairs| && forall i | 0 <= i < |pairs| ::
      pairs[i].target in s && ps[i] == Pair(pairs[i].merge, pairs[i].key, Expand(s, rank, pairs[i].target))
  }

  lemma OwnAgrees(s: Store, rank: Rank, pairs: seq<Ref>, ps: seq<Pair>, key: string)
    requires Acyclic(s, rank) && PairsOf(s, rank, pairs, ps)
    ensures OwnKey(pairs, key).Some? ==> OwnKey(pairs, key).value in s
    ensures Find(ps, key) == Expanded(s, rank, OwnKey(pairs, key))
  {
    if pairs != [] && pairs[0].key != key { OwnAgrees(s, rank, pairs[1..], ps[1..], key); }
  }

  /**
   Main result: looking a key up in the expanded tree is reading it in the document through
   aliases and merge keys.
   */
  lemma {:induction false} ExpandReads(s: Store, rank: Rank, id: Id, key: string)
    requires Acyclic(s, rank) && id in s && NotMergeText(s, key)
    ensures TreeChild(Expand(s, rank, id), key) == Expanded(s, rank, ReadKey(s, rank, id, key))
    decreases rank[id], 3, 0
  {
    var n := Deref(s, rank, id);
    ExpandDeref(s, rank, id);
    if s[n].MapRec? {
      var ps := ExpandPairs(s, rank, n);
      CleanSources(ps);
      OwnAgrees(s, rank, s[n].pairs, ps, key);
      assert [] + ps == ps;
      MergeFromFind([], ps, key);
      MergesAgree(s, rank, n, s[n].pairs, ps, key);
    }
  }

  lemma {:induction false} MergesAgree(s: Store, rank: Rank, n: Id, pairs: seq<Ref>, ps: seq<Pair>, key: string)
    requires Acyclic(s, rank) && n in s && n in rank && NotMergeText(s, key)
    requires forall i | 0 <= i < |pairs| :: Below(s, rank, pairs[i].target, n)
    requires PairsOf(s, rank, pairs, ps)
    ensures Find(AllSources(ps), key) == Expanded(s, rank, ReadMerges(s, rank, n, pairs, key))
    decreases rank[n], 2, |pairs|
  {
    if pairs != [] {
      assert Below(s, rank, pairs[0].target, n);
      var here := if ps[0].merge then SourcePairs(ps[0].value) else [];
      FindConcat(here, AllSources(ps[1..]), key);
      if pairs[0].merge { SourceAgrees(s, rank, pairs[0].target, key); }
      MergesAgree(s, rank, n, pairs[1..], ps[1..], key);
    }
  }

  lemma {:induction false} SourceAgrees(s: Store, rank: Rank, id: Id, key: string)
    requires Acyclic(s, rank) && id in s && NotMergeText(s, key)
    ensures Find(SourcePairs(Expand(s, rank, id)), key) == Expanded(s, rank, ReadSource(s, rank, id, key))
    decreases rank[id], 5, 0
  {
    var m := Deref(s, rank, id);
    ExpandDeref(s, rank, id);
    if s[m].SeqRec? {
      ItemsAgree(s, rank, m, s[m].items, Expand(s, rank, m).items, key);
    } else {
      ExpandReads(s, rank, m, key);
    }
  }

  lemma {:induction false} ItemsAgree(s: Store, rank: Rank, n: Id, items: seq<Id>, ts: seq<Tree>, key: string)
    requires Acyclic(s, rank) && n in s && n in rank && NotMergeText(s, key)
    requires forall i | 0 <= i < |items| :: Below(s, rank, items[i], n)
    requires |ts| == |items| && forall i | 0 <= i < |items| :: items[i] in s && ts[i] == Expand(s, rank, items[i])
    ensures Find(ItemPairs(ts), key) == Expanded(s, rank, ReadItems(s, rank, n, items, key))
    decreases rank[n], 4, |items|
  {
    if items != [] {
      assert Below(s, rank, items[0], n);
      FindConcat(if ts[0].Dict? then ts[0].pairs else [], ItemPairs(ts[1..]), key);
      ExpandReads(s, rank, items[0], key);
      ItemsAgree(s, rank, n, items[1..], ts[1..], key);
    }
  }

  // ---- the loops as they run --------------------------------------------------

  /** Index of the first pair with the key, or -1. */
  method FindMapKeyIndex(ps: seq<Pair>, key: string) returns (idx: int)
    ensures -1 <= idx < |ps|
    ensures idx < 0 <==> Find(ps, key).None?
    ensures idx >= 0 ==> Find(ps, key) == Some(ps[idx].value)
  {
    idx := 0;
    while idx < |ps|
      invariant 0 <= idx <= |ps| && Find(ps, key) == Find(ps[idx..], key)
    {
      if ps[idx].key == key { return; }
      assert ps[idx..][1..] == ps[idx + 1..];
      idx := idx + 1;
    }
    idx := -1;
  }

  /** Splices the contributions of every merge pair into the content. */
  method SpliceMerges(pairs: seq<Pair>) returns (content: seq<Pair>)
    requires PlainSources(pairs)
    ensures content == MergeFrom([], pairs)
  {
    content := pairs;
    var i := 0;
    assert content[..0] == [] && content[0..] == pairs;
    while i < |content|
      invariant 0 <= i <= |content| && PlainSources(content[i..])
      invariant MergeFrom(content[..i], content[i..]) == MergeFrom([], pairs)
      decreases MergeCount(content[i..]), |content| - i
    {
      var at := content[i];
      ghost var done, todo := content[..i], content[i..];
      assert todo[1..] == content[i + 1..];
      if !at.merge {
        assert done + [at] == content[..i + 1];
        i := i + 1;
      } else {
        var extra := SourcePairs(at.value);
        content := content[..i] + content[i + 1..];
        assert content == done + todo[1..];
        AddMissingSplit(done, todo[1..], extra);
        for j := 0 to |extra|
          invariant AddMissing(content, extra[j..]) == AddMissing(done + todo[1..], extra)
        {
          var idx := FindMapKeyIndex(content, extra[j].key);
          assert extra[j..][1..] == extra[j + 1..];
          if idx < 0 { content := content + [extra[j]]; }
        }
      }
    }
    assert content[..i] == content && content[i..] == [];
  }

  /** The whole recursion: children first, then the merge keys of a mapping. */
  method ExpandConfigAliases(s: Store, ghost rank: Rank, id: Id) returns (t: Tree)
    requires Acyclic(s, rank) && id in s
    ensures t == Expand(s, rank, id)
    decreases rank[id], 1
  {
    var n := s[id];
    if n.AliasRec? {
      t := ExpandConfigAliases(s, rank, n.target);
    } else if n.ScalarRec? {
      t := Leaf(n.tag, n.text);
    } else if n.SeqRec? {
      t := ExpandItems(s, rank, id, n.items);
    } else {
      var pairs := ExpandMapping(s, rank, id, n.pairs);
      CleanSources(pairs);
      var content := SpliceMerges(pairs);
      t := Dict(content);
    }
  }

  method ExpandItems(s: Store, ghost rank: Rank, id: Id, items: seq<Id>) returns (t: Tree)
    requires Acyclic(s, rank) && id in s && s[id] == SeqRec(items)
    ensures t == Expand(s, rank, id)
    decreases rank[id], 0
  {
    var ts: seq<Tree> := [];
    for i := 0 to |items|
      invariant ts == Expand(s, rank, id).items[..i]
    {
      assert Below(s, rank, items[i], id);
      var c := ExpandConfigAliases(s, rank, items[i]);
      ts := ts + [c];
    }
    t := List(ts);
  }

  method ExpandMapping(s: Store, ghost rank: Rank, id: Id, pairs: seq<Ref>) returns (ps: seq<Pair>)
    requires Acyclic(s, rank) && id in s && s[id] == MapRec(pairs)
    ensures ps == ExpandPairs(s, rank, id)
    decreases rank[id], 0
  {
    ps := [];
    for i := 0 to |pairs|
      invariant ps == ExpandPairs(s, rank, id)[..i]
    {
      assert Below(s, rank, pairs[i].target, id);
      var c := ExpandConfigAliases(s, rank, pairs[i].target);
      ps := ps + [Pair(pairs[i].merge, pairs[i].key, c)];
    }
  }
}
