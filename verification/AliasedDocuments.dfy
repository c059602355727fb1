/**
 Documents as they are parsed, with aliases and merge keys, and what the runtime reads of them
 before and after their layout is rewritten.

 Models the calls of expandConfigAliases in CLIProxyAPI/internal/config/config_v8.go, flattenV8
 and NormalizeConfigLayout.
 */
module AliasedDocuments {
  import opened Wrappers
  import opened YamlTree
  import opened AliasExpansion
  import opened LayoutMigration
  import opened MigrationTheorems
  import FlattenTheorems
  import TidyTheorems

  function ToNode(t: Tree): Node {
    match t
    case Leaf(tag, text) => Scalar(tag, text)
    case List(items) => Sequence(seq(|items|, i requires 0 <= i < |items| => ToNode(items[i])))
    case Dict(ps) => Mapping(seq(|ps|, i requires 0 <= i < |ps| => Entry(ps[i].key, ToNode(ps[i].value))))
  }

  function Entries(ps: seq<Pair>): (es: seq<Entry>)
    ensures |es| == |ps|
  {
    seq(|ps|, i requires 0 <= i < |ps| => Entry(ps[i].key, ToNode(ps[i].value)))
  }

  /** The document a stored node stands for once aliases and merge keys are expanded. */
  function Document(s: Store, ghost rank: Rank, id: Id): Node
    requires Acyclic(s, rank) && id in s
  {
    ToNode(Expand(s, rank, id))
  }

  // ---- reading without expanding ----------------------------------------------------

  /** The node at a path, following aliases and merge keys on the way. */
  ghost function ReadPath(s: Store, rank: Rank, id: Id, q: Path): (r: Option<Id>)
    requires Acyclic(s, rank) && id in s
    ensures r.Some? ==> r.value in s
    decreases |q|
  {
    if q == [] then Some(id)
    else match ReadKey(s, rank, id, q[0])
      case None => None
      case Some(c) => ReadPath(s, rank, c, q[1..])
  }

  /** What stands at a path of the parsed document. */
  ghost function ReadAt(s: Store, rank: Rank, id: Id, q: Path): Option<Node>
    requires Acyclic(s, rank) && id in s
  {
    match ReadPath(s, rank, id, q)
    case None => None
    case Some(c) => Some(Document(s, rank, c))
  }

  /** No key of the path is spelled like a merge key of the document. */
  ghost predicate Plain(s: Store, q: Path) {
    forall i | 0 <= i < |q| :: NotMergeText(s, q[i])
  }

  lemma {:induction false} LookupEntries(ps: seq<Pair>, key: string)
    ensures Lookup(Entries(ps), key) == match Find(ps, key) case None => None case Some(c) => Some(ToNode(c))
  {
    if ps != [] {
      assert Entries(ps)[1..] == Entries(ps[1..]);
      LookupEntries(ps[1..], key);
    }
  }

  lemma ChildOf(t: Tree, key: string)
    ensures Child(ToNode(t), key) == match TreeChild(t, key) case None => None case Some(c) => Some(ToNode(c))
  {
    if t.Dict? {
      assert ToNode(t).entries == Entries(t.pairs);
      LookupEntries(t.pairs, key);
    }
  }

  /** Main result: looking a path up in the expanded document is reading it through aliases and merge keys. */
  lemma {:induction false} DocumentReads(s: Store, rank: Rank, id: Id, q: Path)
    requires Acyclic(s, rank) && id in s && Plain(s, q)
    ensures Get(Document(s, rank, id), q) == ReadAt(s, rank, id, q)
    decreases |q|
  {
    if q != [] {
      ExpandReads(s, rank, id, q[0]);
      ChildOf(Expand(s, rank, id), q[0]);
      var c := ReadKey(s, rank, id, q[0]);
      if c.Some? {
        assert Plain(s, q[1..]);
        DocumentReads(s, rank, c.value, q[1..]);
      }
    }
  }

  // ---- duplicate keys -----------------------------------------------------------------

  predicate DistinctRefs(pairs: seq<Ref>) {
    forall i, j | 0 <= i < j < |pairs| :: pairs[i].key != pairs[j].key
  }

  /** What decoding checks first: no mapping spells a key twice, its merge key included. */
  predicate DistinctKeys(s: Store) {
    forall id | id in s :: s[id].MapRec? ==> DistinctRefs(s[id].pairs)
  }

  ghost predicate Distinct(ps: seq<Pair>) {
    forall i, j | 0 <= i < j < |ps| :: ps[i].key != ps[j].key
  }

  ghost predicate UniqueValues(ps: seq<Pair>) {
    forall i | 0 <= i < |ps| :: Unique(ToNode(ps[i].value))
  }

  lemma {:induction false} FindNone(ps: seq<Pair>, key: string)
    requires Find(ps, key).None?
    ensures forall i | 0 <= i < |ps| :: ps[i].key != key
  {
    if ps != [] {
      FindNone(ps[1..], key);
      assert forall i | 1 <= i < |ps| :: ps[i] == ps[1..][i - 1];
    }
  }

  lemma {:induction false} AddMissingUnique(ps: seq<Pair>, extra: seq<Pair>)
    requires Distinct(ps) && UniqueValues(ps) && UniqueValues(extra)
    ensures Distinct(AddMissing(ps, extra)) && UniqueValues(AddMissing(ps, extra))
    decreases |extra|
  {
    if extra != [] {
      var found := Find(ps, extra[0].key).Some?;
      if !found { FindNone(ps, extra[0].key); }
      AddMissingUnique(if found then ps else ps + [extra[0]], extra[1..]);
    }
  }

  lemma {:induction false} ItemPairsUnique(items: seq<Tree>)
    requires forall i | 0 <= i < |items| :: Unique(ToNode(items[i]))
    ensures UniqueValues(ItemPairs(items))
  {
    if items != [] {
      ItemPairsUnique(items[1..]);
      if items[0].Dict? { PairsUnique(items[0]); }
    }
  }

  lemma PairsUnique(t: Tree)
    requires t.Dict? && Unique(ToNode(t))
    ensures UniqueValues(t.pairs) && Distinct(t.pairs)
  {
    var es := ToNode(t).entries;
    forall i | 0 <= i < |t.pairs| ensures Unique(ToNode(t.pairs[i].value)) { assert Unique(es[i].value); }
    forall i, j | 0 <= i < j < |t.pairs| ensures t.pairs[i].key != t.pairs[j].key { assert es[i].key != es[j].key; }
  }

  lemma SourceUnique(v: Tree)
    requires Unique(ToNode(v))
    ensures UniqueValues(SourcePairs(v))
  {
    if v.Dict? {
      PairsUnique(v);
    } else if v.List? {
      forall i | 0 <= i < |v.items| ensures Unique(ToNode(v.items[i])) { assert Unique(ToNode(v).items[i]); }
      ItemPairsUnique(v.items);
    }
  }

  lemma {:induction false} MergeFromUnique(done: seq<Pair>, todo: seq<Pair>)
    requires PlainSources(todo) && Distinct(done + todo) && UniqueValues(done + todo)
    ensures Distinct(MergeFrom(done, todo)) && UniqueValues(MergeFrom(done, todo))
    decreases MergeCount(todo), |todo|
  {
    if todo == [] {
      assert done + todo == done;
    } else if !todo[0].merge {
      assert done + [todo[0]] + todo[1..] == done + todo;
      MergeFromUnique(done + [todo[0]], todo[1..]);
    } else {
      var extra := SourcePairs(todo[0].value);
      var rest := AddMissing(done + todo[1..], extra);
      assert todo[0] == (done + todo)[|done|];
      SourceUnique(todo[0].value);
      DropOne(done, todo);
      AddMissingUnique(done + todo[1..], extra);
      AddMissingSplit(done, todo[1..], extra);
      assert rest[..|done|] + rest[|done|..] == rest;
      MergeFromUnique(rest[..|done|], rest[|done|..]);
    }
  }

  lemma DropOne(done: seq<Pair>, todo: seq<Pair>)
    requires todo != [] && Distinct(done + todo) && UniqueValues(done + todo)
    ensures Distinct(done + todo[1..]) && UniqueValues(done + todo[1..])
  {
    var all, less := done + todo, done + todo[1..];
    assert forall i | 0 <= i < |less| :: less[i] == all[if i < |done| then i else i + 1];
  }

  lemma DictUnique(ps: seq<Pair>)
    requires Distinct(ps) && UniqueValues(ps)
    ensures Unique(ToNode(Dict(ps)))
  {
  }

  /** Expanding a document without duplicate keys gives one without duplicate keys. */
  lemma {:induction false} DocumentUnique(s: Store, rank: Rank, id: Id)
    requires Acyclic(s, rank) && id in s && DistinctKeys(s)
    ensures Unique(Document(s, rank, id))
    decreases rank[id]
  {
    var n := s[id];
    if n.AliasRec? {
      DocumentUnique(s, rank, n.target);
    } else if n.SeqRec? {
      forall i | 0 <= i < |n.items| ensures Unique(Document(s, rank, n.items[i])) {
        assert Below(s, rank, n.items[i], id);
        DocumentUnique(s, rank, n.items[i]);
      }
    } else if n.MapRec? {
      var ps := ExpandPairs(s, rank, id);
      forall i | 0 <= i < |ps| ensures Unique(ToNode(ps[i].value)) {
        assert Below(s, rank, n.pairs[i].target, id);
        DocumentUnique(s, rank, n.pairs[i].target);
      }
      CleanSources(ps);
      assert [] + ps == ps;
      MergeFromUnique([], ps);
      DictUnique(MergeFrom([], ps));
    }
  }

  // ---- settings ------------------------------------------------------------------------

  /** A legacy spelling as the parsed document has it; the v8 groups do not count as the key list. */
  ghost function LegacyAt(s: Store, rank: Rank, id: Id, q: Path): Option<Node>
    requires Acyclic(s, rank) && id in s
  {
    var v := ReadAt(s, rank, id, q);
    if q == API_KEYS && v.Some? && v.value.Mapping? then None else v
  }

  ghost function FirstLegacyAt(s: Store, rank: Rank, id: Id, ms: seq<Move>, current: Path): Option<Node>
    requires Acyclic(s, rank) && id in s
  {
    if ms == [] then None
    else if ms[0].current == current && LegacyAt(s, rank, id, ms[0].legacy).Some? then LegacyAt(s, rank, id, ms[0].legacy)
    else FirstLegacyAt(s, rank, id, ms[1..], current)
  }

  /** The value the author of the document gave a setting, read through aliases and merge keys. */
  ghost function SettingAt(s: Store, rank: Rank, id: Id, ms: seq<Move>, current: Path): Option<Node>
    requires Acyclic(s, rank) && id in s
  {
    var v := ReadAt(s, rank, id, current);
    if v.Some? then v else FirstLegacyAt(s, rank, id, ms, current)
  }

  /** The keys of the tables are none of the document's merge keys. */
  ghost predicate PlainTable(s: Store, ms: seq<Move>) {
    forall m | m in ms :: Plain(s, m.legacy) && Plain(s, m.current)
  }

  lemma {:induction false} FirstLegacyReads(s: Store, rank: Rank, id: Id, ms: seq<Move>, current: Path)
    requires Acyclic(s, rank) && id in s && PlainTable(s, ms)
    ensures FirstLegacy(Document(s, rank, id), ms, current) == FirstLegacyAt(s, rank, id, ms, current)
  {
    if ms != [] {
      assert ms[0] in ms;
      DocumentReads(s, rank, id, ms[0].legacy);
      FirstLegacyReads(s, rank, id, ms[1..], current);
    }
  }

  lemma SettingReads(s: Store, rank: Rank, id: Id, ms: seq<Move>, i: nat)
    requires Acyclic(s, rank) && id in s && PlainTable(s, ms) && i < |ms|
    ensures Effective(Document(s, rank, id), ms, ms[i].current) == SettingAt(s, rank, id, ms, ms[i].current)
  {
    assert ms[i] in ms;
    DocumentReads(s, rank, id, ms[i].current);
    FirstLegacyReads(s, rank, id, ms, ms[i].current);
  }

  /**
   Main result: what the decoder finds for a setting is what the parsed document says through its
   aliases and merge keys, the v8 spelling first.
   */
  lemma RuntimeReads(s: Store, rank: Rank, id: Id, t: Table, k: nat)
    requires Acyclic(s, rank) && id in s && PlainTable(s, t.Moves()) && Separated(t)
    requires Flatten(Document(s, rank, id), t).Ok? && k < |t.fields|
    ensures Get(Flatten(Document(s, rank, id), t).value, t.fields[k].legacy) ==
            SettingAt(s, rank, id, t.Moves(), t.fields[k].current)
  {
    FlattenTheorems.FieldRead(Document(s, rank, id), t, k);
    FieldAt(t, k);
    SettingReads(s, rank, id, t.Moves(), |t.aliases| + k);
  }

  /** Main result: the rewritten file, which has no aliases left, says the same for every setting. */
  lemma RewrittenSays(s: Store, rank: Rank, id: Id, t: Table, migrate: bool, i: nat)
    requires Acyclic(s, rank) && id in s && DistinctKeys(s) && PlainTable(s, t.Moves()) && Separated(t)
    requires i < |t.Moves()|
    ensures Effective(Normalize(Document(s, rank, id), t, migrate), t.Moves(), t.Moves()[i].current) ==
            SettingAt(s, rank, id, t.Moves(), t.Moves()[i].current)
  {
    DocumentUnique(s, rank, id);
    NormalizeKeepsSettings(Document(s, rank, id), t, migrate);
    SettingReads(s, rank, id, t.Moves(), i);
  }

  /** Main result: and so the runtime reads of it what the parsed document said. */
  lemma RuntimeReadsRewritten(s: Store, rank: Rank, id: Id, t: Table, migrate: bool, k: nat)
    requires Acyclic(s, rank) && id in s && PlainTable(s, t.Moves()) && Separated(t) && k < |t.fields|
    requires Flatten(Document(s, rank, id), t).Ok? && TidyTheorems.ListsReadBack(Document(s, rank, id), t, migrate)
    ensures var r := Normalize(Document(s, rank, id), t, migrate);
      Flatten(r, t).Ok? && Get(Flatten(r, t).value, t.fields[k].legacy) == SettingAt(s, rank, id, t.Moves(), t.fields[k].current)
  {
    TidyTheorems.RuntimeUnchanged(Document(s, rank, id), t, migrate);
    RuntimeReads(s, rank, id, t, k);
  }
}
