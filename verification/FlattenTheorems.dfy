/**
 What the runtime decoder sees: flattening a document puts every setting's effective
 value at the path the decoder reads, and migrating the document first changes nothing.
 */
module FlattenTheorems {
  import opened Wrappers
  import opened YamlTree
  import opened KeyGroups
  import opened LayoutMigration
  import opened MigrationTheorems

  // ---- historical spellings -------------------------------------------------

  lemma AliasUnique(n: Node, m: Move)
    requires Unique(n) && m.legacy != []
    ensures Unique(StepAlias(n, m))
  {
    if Get(n, m.legacy).Some? {
      var v := Get(n, m.legacy).value;
      GetUnique(n, m.legacy);
      SetUnique(n, m.current, v);
      DeleteUnique(n, m.legacy);
      DeleteUnique(Set(n, m.current, v), m.legacy);
    }
  }

  lemma AliasFrame(n: Node, m: Move, q: Path)
    requires Unique(n) && m.legacy != [] && !Comparable(m.legacy, q) && !Comparable(m.current, q)
    ensures Get(StepAlias(n, m), q) == Get(n, q)
  {
    if Get(n, m.legacy).Some? {
      var v := Get(n, m.legacy).value;
      GetUnique(n, m.legacy);
      SetUnique(n, m.current, v);
      GetSetOther(n, m.current, v, q);
      GetDeleteOther(n, m.legacy, q);
      GetDeleteOther(Set(n, m.current, v), m.legacy, q);
    }
  }

  /** Storing before removing leaves the same values at every spelling as removing before storing. */
  lemma AliasLikeMove(n: Node, ms: seq<Move>, i: nat)
    requires LeavesApart(ms) && Unique(n) && i < |ms| && ms[i].legacy != API_KEYS
    ensures SameSpellings(StepMove(n, ms[i], true), StepAlias(n, ms[i]), ms)
  {
    var m := ms[i];
    var moved, aliased := StepMove(n, m, true), StepAlias(n, m);
    StepCurrent(n, m, true);
    StepOld(n, m, true);
    AliasEnds(n, m);
    forall j | 0 <= j < |ms|
      ensures Get(aliased, ms[j].current) == Get(moved, ms[j].current)
      ensures Get(aliased, ms[j].legacy) == Get(moved, ms[j].legacy)
    {
      if ms[j].current != m.current {
        AliasFrame(n, m, ms[j].current);
        StepFrame(n, m, true, ms[j].current);
      }
      if j != i {
        AliasFrame(n, m, ms[j].legacy);
        StepFrame(n, m, true, ms[j].legacy);
      }
    }
  }

  lemma AliasEnds(n: Node, m: Move)
    requires Unique(n) && m.legacy != [] && !Comparable(m.legacy, m.current)
    ensures Get(StepAlias(n, m), m.legacy).None?
    ensures Get(StepAlias(n, m), m.current) == if Get(n, m.current).Some? then Get(n, m.current) else Get(n, m.legacy)
  {
    if Get(n, m.legacy).Some? {
      var v := Get(n, m.legacy).value;
      GetUnique(n, m.legacy);
      SetUnique(n, m.current, v);
      GetSetSame(n, m.current, v);
      GetDeleteSame(n, m.legacy);
      GetDeleteSame(Set(n, m.current, v), m.legacy);
      GetDeleteOther(n, m.legacy, m.current);
      GetDeleteOther(Set(n, m.current, v), m.legacy, m.current);
    }
  }

  lemma {:induction false} RunAliasesKeepSettings(n: Node, t: Table, i: nat)
    requires Separated(t) && Unique(n) && i <= |t.aliases| && AbsentBefore(n, t.Moves(), i)
    ensures forall m | m in t.aliases[i..] :: m.legacy != []
    ensures var r := RunAliases(n, t.aliases[i..]);
      && Unique(r) && AbsentBefore(r, t.Moves(), |t.aliases|)
      && forall k | 0 <= k < |t.Moves()| ::
           Effective(r, t.Moves(), t.Moves()[k].current) == Effective(n, t.Moves(), t.Moves()[k].current)
    decreases |t.aliases| - i
  {
    var ms := t.Moves();
    if i < |t.aliases| {
      assert ms[i] == t.aliases[i];
      var moved, next := StepMove(n, ms[i], true), StepAlias(n, ms[i]);
      AliasUnique(n, ms[i]);
      AliasLikeMove(n, ms, i);
      SameSpellingsSameSettings(moved, next, ms);
      StepEffective(n, ms, i, true, i);
      forall k | 0 <= k < |ms| ensures Effective(next, ms, ms[k].current) == Effective(n, ms, ms[k].current) {
        StepEffective(n, ms, i, true, k);
      }
      RunAliasesKeepSettings(next, t, i + 1);
      assert t.aliases[i..][0] == t.aliases[i] && t.aliases[i..][1..] == t.aliases[i + 1..];
    }
  }

  lemma {:induction false} RunAliasesFrame(n: Node, ms: seq<Move>, q: Path)
    requires Unique(n)
    requires forall i | 0 <= i < |ms| :: ms[i].legacy != [] && !Comparable(ms[i].legacy, q) && !Comparable(ms[i].current, q)
    ensures forall m | m in ms :: m.legacy != []
    ensures Get(RunAliases(n, ms), q) == Get(n, q)
    decreases |ms|
  {
    if ms != [] {
      AliasUnique(n, ms[0]);
      AliasFrame(n, ms[0], q);
      RunAliasesFrame(StepAlias(n, ms[0]), ms[1..], q);
    }
  }

  // ---- historical containers ------------------------------------------------

  lemma SharedUnique(n: Node, m: Move)
    requires Unique(n) && m.legacy != []
    ensures StepShared(n, m).Ok? ==> Unique(StepShared(n, m).value)
  {
    SetUnique(n, m.current, EMPTY_MAP);
    DeleteUnique(n, m.legacy);
    DeleteUnique(Set(n, m.current, EMPTY_MAP), m.legacy);
  }

  lemma SharedFrame(n: Node, m: Move, q: Path)
    requires Unique(n) && m.legacy != [] && !Comparable(m.legacy, m.current) && StepShared(n, m).Ok?
    requires !(q <= m.legacy) && !(q <= m.current)
    ensures Get(StepShared(n, m).value, q) == Get(n, q)
  {
    if Hollow(Get(n, m.legacy)) {
      QuietDelete(n, m.legacy, q);
      if Get(n, m.current).None? {
        var r := Set(n, m.current, EMPTY_MAP);
        SetUnique(n, m.current, EMPTY_MAP);
        QuietSet(n, m.current, q);
        GetSetOther(n, m.current, EMPTY_MAP, m.legacy);
        QuietDelete(r, m.legacy, q);
      }
    }
  }

  lemma {:induction false} RunSharedFrame(n: Node, cs: seq<Move>, q: Path)
    requires Unique(n) && forall k | 0 <= k < |cs| :: cs[k].legacy != [] && !Comparable(cs[k].legacy, cs[k].current)
    requires forall k | 0 <= k < |cs| :: !(q <= cs[k].legacy) && !(q <= cs[k].current)
    ensures forall m | m in cs :: m.legacy != []
    ensures RunShared(n, cs).Ok? ==> Unique(RunShared(n, cs).value) && Get(RunShared(n, cs).value, q) == Get(n, q)
    decreases |cs|
  {
    if cs != [] && StepShared(n, cs[0]).Ok? {
      SharedUnique(n, cs[0]);
      SharedFrame(n, cs[0], q);
      RunSharedFrame(StepShared(n, cs[0]).value, cs[1..], q);
    }
  }

  lemma {:induction false} RunSharedUnique(n: Node, cs: seq<Move>)
    requires Unique(n) && forall m | m in cs :: m.legacy != []
    ensures RunShared(n, cs).Ok? ==> Unique(RunShared(n, cs).value)
    decreases |cs|
  {
    if cs != [] && StepShared(n, cs[0]).Ok? {
      SharedUnique(n, cs[0]);
      RunSharedUnique(StepShared(n, cs[0]).value, cs[1..]);
    }
  }

  lemma SharedKeepSpellings(n: Node, t: Table)
    requires Separated(t) && Unique(n) && RunShared(n, t.sharedStructs).Ok?
    ensures SameSpellings(n, RunShared(n, t.sharedStructs).value, t.Moves())
  {
    var cs := t.sharedStructs;
    forall k | 0 <= k < |cs| ensures t.Containers()[|t.structs| + k] == cs[k] {}
    forall i | 0 <= i < |t.Moves()|
      ensures Get(RunShared(n, cs).value, t.Moves()[i].current) == Get(n, t.Moves()[i].current)
      ensures Get(RunShared(n, cs).value, t.Moves()[i].legacy) == Get(n, t.Moves()[i].legacy)
    {
      LeafAwayFromContainers(t, i);
      forall k | 0 <= k < |cs| ensures cs[k] in t.Containers() {
        assert t.Containers()[|t.structs| + k] == cs[k];
      }
      RunSharedFrame(n, cs, t.Moves()[i].current);
      RunSharedFrame(n, cs, t.Moves()[i].legacy);
    }
  }

  // ---- back to the legacy layout ---------------------------------------------

  lemma BackUnique(n: Node, m: Move)
    requires Unique(n) && m.current != []
    ensures Unique(StepBack(n, m))
  {
    if Get(n, m.current).Some? {
      GetUnique(n, m.current);
      DeleteUnique(n, m.current);
      SetUnique(Delete(n, m.current), m.legacy, Get(n, m.current).value);
    }
  }

  lemma BackFrame(n: Node, m: Move, q: Path)
    requires Unique(n) && m.current != [] && !Comparable(m.legacy, q) && !Comparable(m.current, q)
    ensures Get(StepBack(n, m), q) == Get(n, q)
  {
    GetDeleteOther(n, m.current, q);
    if Get(n, m.current).Some? { GetSetOther(Delete(n, m.current), m.legacy, Get(n, m.current).value, q); }
  }

  lemma {:induction false} RunBackFrame(n: Node, ms: seq<Move>, q: Path)
    requires Unique(n)
    requires forall i | 0 <= i < |ms| :: ms[i].current != [] && !Comparable(ms[i].legacy, q) && !Comparable(ms[i].current, q)
    ensures forall m | m in ms :: m.current != []
    ensures Get(RunBack(n, ms), q) == Get(n, q)
    decreases |ms|
  {
    if ms != [] {
      BackUnique(n, ms[0]);
      BackFrame(n, ms[0], q);
      RunBackFrame(StepBack(n, ms[0]), ms[1..], q);
    }
  }

  lemma {:induction false} RunBackAt(n: Node, ms: seq<Move>, k: nat)
    requires Unique(n) && k < |ms| && LeavesApart(ms)
    requires forall i, j | 0 <= i < j < |ms| :: ms[i].current != ms[j].current
    ensures forall m | m in ms :: m.current != []
    ensures Get(RunBack(n, ms), ms[k].legacy) ==
      if Get(n, ms[k].current).Some? then Get(n, ms[k].current) else Get(n, ms[k].legacy)
    decreases |ms|
  {
    var m, rest := ms[0], ms[1..];
    var next := StepBack(n, m);
    BackUnique(n, m);
    assert forall i | 0 <= i < |rest| :: rest[i] == ms[i + 1];
    if k == 0 {
      if Get(n, m.current).Some? { GetSetSame(Delete(n, m.current), m.legacy, Get(n, m.current).value); }
      RunBackFrame(next, rest, m.legacy);
    } else {
      BackFrame(n, m, ms[k].current);
      BackFrame(n, m, ms[k].legacy);
      RunBackAt(next, rest, k - 1);
    }
  }

  lemma DropKeyMappingReads(n: Node, t: Table)
    requires Separated(t) && Unique(n)
    ensures var r := DropKeyMapping(n);
      && Unique(r)
      && forall i | 0 <= i < |t.Moves()| ::
        Get(r, t.Moves()[i].current) == Get(n, t.Moves()[i].current) && Get(r, t.Moves()[i].legacy) == LegacyGet(n, t.Moves()[i].legacy)
  {
    DeleteUnique(n, API_KEYS);
    GetDeleteSame(n, API_KEYS);
    forall i | 0 <= i < |t.Moves()|
      ensures Get(DropKeyMapping(n), t.Moves()[i].current) == Get(n, t.Moves()[i].current)
      ensures Get(DropKeyMapping(n), t.Moves()[i].legacy) == LegacyGet(n, t.Moves()[i].legacy)
    {
      GetDeleteOther(n, API_KEYS, t.Moves()[i].current);
      if t.Moves()[i].legacy != API_KEYS { GetDeleteOther(n, API_KEYS, t.Moves()[i].legacy); }
    }
  }

  // ---- credential families ---------------------------------------------------

  lemma {:induction false} ExpandFrame(n: Node, source: Node, t: Table, fs: seq<Family>, q: Path)
    requires forall k | 0 <= k < |fs| :: !Comparable(fs[k].move.legacy, q)
    ensures var r := ExpandFamilies(n, source, t, fs); r.Ok? ==> Get(r.value, q) == Get(n, q)
    decreases |fs|
  {
    if fs != [] {
      var groups := Get(source, fs[0].move.current);
      if groups.None? {
        ExpandFrame(n, source, t, fs[1..], q);
      } else {
        var keys := ExpandGroups(t.shared, groups.value, fs[0].provider, t.weightOk);
        if keys.Ok? {
          GetSetOther(n, fs[0].move.legacy, keys.value, q);
          ExpandFrame(Set(n, fs[0].move.legacy, keys.value), source, t, fs[1..], q);
        }
      }
    }
  }

  /** The credential list the decoder reads for a family. */
  function FamilyKeys(n: Node, source: Node, t: Table, f: Family): Option<Node> {
    var groups := Get(source, f.move.current);
    if groups.None? then Get(n, f.move.legacy)
    else
      match ExpandGroups(t.shared, groups.value, f.provider, t.weightOk)
      case Ok(keys) => Some(keys)
      case Err(_) => None
  }

  /** The families one by one: the first, then the rest. */
  lemma ExpandFirst(n: Node, source: Node, t: Table, fs: seq<Family>)
    requires fs != [] && ExpandFamilies(n, source, t, fs).Ok?
    ensures var f := fs[0];
      ExpandFamilies(n, source, t, fs) == ExpandFamilies(AfterFamily(n, source, t, f), source, t, fs[1..])
    ensures Get(AfterFamily(n, source, t, fs[0]), fs[0].move.legacy) == FamilyKeys(n, source, t, fs[0])
  {
    var keys := FamilyKeys(n, source, t, fs[0]);
    if Get(source, fs[0].move.current).Some? { GetSetSame(n, fs[0].move.legacy, keys.value); }
  }

  function AfterFamily(n: Node, source: Node, t: Table, f: Family): Node {
    var keys := FamilyKeys(n, source, t, f);
    if Get(source, f.move.current).Some? && keys.Some? then Set(n, f.move.legacy, keys.value) else n
  }

  lemma AfterFamilyFrame(n: Node, source: Node, t: Table, f: Family, g: Family)
    requires !Comparable(f.move.legacy, g.move.legacy)
    ensures FamilyKeys(AfterFamily(n, source, t, f), source, t, g) == FamilyKeys(n, source, t, g)
  {
    var keys := FamilyKeys(n, source, t, f);
    if keys.Some? { GetSetOther(n, f.move.legacy, keys.value, g.move.legacy); }
  }

  lemma {:induction false} ExpandAt(n: Node, source: Node, t: Table, fs: seq<Family>, k: nat)
    requires k < |fs| && ExpandFamilies(n, source, t, fs).Ok?
    requires forall i, j | 0 <= i < |fs| && 0 <= j < |fs| && i != j :: !Comparable(fs[i].move.legacy, fs[j].move.legacy)
    ensures Get(ExpandFamilies(n, source, t, fs).value, fs[k].move.legacy) == FamilyKeys(n, source, t, fs[k])
    decreases |fs|
  {
    var rest, next := fs[1..], AfterFamily(n, source, t, fs[0]);
    ExpandFirst(n, source, t, fs);
    assert forall i | 0 <= i < |rest| :: rest[i] == fs[i + 1];
    if k == 0 {
      ExpandFrame(next, source, t, rest, fs[0].move.legacy);
    } else {
      AfterFamilyFrame(n, source, t, fs[0], fs[k]);
      ExpandAt(next, source, t, rest, k - 1);
    }
  }

  lemma {:induction false} ExpandSucceeds(n: Node, source: Node, t: Table, fs: seq<Family>)
    ensures ExpandFamilies(n, source, t, fs).Ok? <==>
      forall k | 0 <= k < |fs| :: Get(source, fs[k].move.current).Some? ==>
        ExpandGroups(t.shared, Get(source, fs[k].move.current).value, fs[k].provider, t.weightOk).Ok?
    decreases |fs|
  {
    if fs != [] {
      assert forall i | 1 <= i < |fs| :: fs[i] == fs[1..][i - 1];
      var groups := Get(source, fs[0].move.current);
      if groups.None? {
        ExpandSucceeds(n, source, t, fs[1..]);
      } else {
        var keys := ExpandGroups(t.shared, groups.value, fs[0].provider, t.weightOk);
        if keys.Ok? { ExpandSucceeds(Set(n, fs[0].move.legacy, keys.value), source, t, fs[1..]); }
      }
    }
  }

  // ---- the whole flattening ---------------------------------------------------

  /** The document just before the v8 values move back. */
  function Prepared(n: Node, t: Table): Node
    requires t.Paths() && RunShared(RunAliases(n, t.aliases), t.sharedStructs).Ok?
  {
    DropKeyMapping(RunShared(RunAliases(n, t.aliases), t.sharedStructs).value)
  }

  /** The canonical path of the alias is not mapped from any legacy field. */
  ghost predicate NoField(t: Table, k: nat)
    requires k < |t.aliases|
  {
    forall j | 0 <= j < |t.fields| :: t.fields[j].current != t.aliases[k].current
  }

  lemma PreparedReads(n: Node, t: Table)
    requires Separated(t) && Unique(n) && RunShared(RunAliases(n, t.aliases), t.sharedStructs).Ok?
    ensures Unique(Prepared(n, t))
    ensures forall k | 0 <= k < |t.Moves()| && Get(Prepared(n, t), t.Moves()[k].current).Some? ::
      Effective(n, t.Moves(), t.Moves()[k].current) == Get(Prepared(n, t), t.Moves()[k].current)
    ensures forall k | |t.aliases| <= k < |t.Moves()| && Get(Prepared(n, t), t.Moves()[k].current).None? ::
      Effective(n, t.Moves(), t.Moves()[k].current) == Get(Prepared(n, t), t.Moves()[k].legacy)
    ensures forall k | 0 <= k < |t.aliases| && Get(Prepared(n, t), t.Moves()[k].current).None? && NoField(t, k) ::
      Effective(n, t.Moves(), t.Moves()[k].current).None?
  {
    var ms := t.Moves();
    var aliased := RunAliases(n, t.aliases);
    assert t.aliases[0..] == t.aliases;
    RunAliasesKeepSettings(n, t, 0);
    RunSharedUnique(aliased, t.sharedStructs);
    SharedKeepSpellings(aliased, t);
    var root := RunShared(aliased, t.sharedStructs).value;
    SameSpellingsSameSettings(aliased, root, ms);
    DropKeyMappingReads(root, t);
    forall j | 0 <= j < |t.aliases| ensures LegacyGet(root, ms[j].legacy).None? {
      assert Get(root, ms[j].legacy) == Get(aliased, ms[j].legacy);
    }
    forall k | 0 <= k < |ms| && Get(root, ms[k].current).None?
      ensures k >= |t.aliases| ==> FirstLegacy(root, ms, ms[k].current) == LegacyGet(root, ms[k].legacy)
      ensures k < |t.aliases| && NoField(t, k) ==>
        FirstLegacy(root, ms, ms[k].current).None?
    {
      FirstLegacyOfField(root, t, k);
    }
  }

  /** Once the aliases are gone a setting has at most its one legacy spelling. */
  lemma FirstLegacyOfField(n: Node, t: Table, k: nat)
    requires Separated(t) && k < |t.Moves()| && forall j | 0 <= j < |t.aliases| :: LegacyGet(n, t.Moves()[j].legacy).None?
    ensures k >= |t.aliases| ==> FirstLegacy(n, t.Moves(), t.Moves()[k].current) == LegacyGet(n, t.Moves()[k].legacy)
    ensures k < |t.aliases| && NoField(t, k) ==>
      FirstLegacy(n, t.Moves(), t.Moves()[k].current).None?
  {
    var ms, a := t.Moves(), |t.aliases|;
    assert forall j | a <= j < |ms| :: ms[j] == t.fields[j - a];
    if k >= a {
      OnlyLegacy(n, ms, k) by {
        forall j | 0 <= j < |ms| && j != k && ms[j].current == ms[k].current ensures LegacyGet(n, ms[j].legacy).None? {
        }
      }
    } else if NoField(t, k) {
      forall j | 0 <= j < |ms| && ms[j].current == ms[k].current ensures LegacyGet(n, ms[j].legacy).None? {
      }
      FirstLegacyNone(n, ms, ms[k].current);
    }
  }

  lemma OnlyLegacy(n: Node, ms: seq<Move>, k: nat)
    requires k < |ms|
    requires forall j | 0 <= j < |ms| && j != k && ms[j].current == ms[k].current :: LegacyGet(n, ms[j].legacy).None?
    ensures FirstLegacy(n, ms, ms[k].current) == LegacyGet(n, ms[k].legacy)
  {
    if LegacyGet(n, ms[k].legacy).None? {
      FirstLegacyNone(n, ms, ms[k].current);
    } else if k > 0 {
      assert forall j | 0 <= j < |ms[1..]| :: ms[1..][j] == ms[j + 1];
      OnlyLegacy(n, ms[1..], k - 1);
    }
  }

  lemma FieldRead(n: Node, t: Table, k: nat)
    requires Separated(t) && k < |t.fields| && Flatten(n, t).Ok?
    ensures Get(Flatten(n, t).value, t.fields[k].legacy) == Effective(n, t.Moves(), t.fields[k].current)
  {
    FieldAt(t, k);
    PreparedReads(n, t);
    FieldsApart(t);
    RunBackAt(Prepared(n, t), t.fields, k);
    ExpandFrame(RunBack(Prepared(n, t), t.fields), n, t, t.families, t.fields[k].legacy);
  }

  lemma AliasBesideFields(t: Table, k: nat)
    requires Separated(t) && k < |t.aliases| && NoField(t, k)
    ensures forall j | 0 <= j < |t.fields| ::
      !Comparable(t.fields[j].legacy, t.aliases[k].current) && !Comparable(t.fields[j].current, t.aliases[k].current)
    ensures forall f | 0 <= f < |t.families| :: !Comparable(t.families[f].move.legacy, t.aliases[k].current)
  {
    AliasAt(t, k);
    forall j | 0 <= j < |t.fields|
      ensures !Comparable(t.fields[j].legacy, t.aliases[k].current) && !Comparable(t.fields[j].current, t.aliases[k].current)
    {
      FieldAt(t, j);
    }
  }

  lemma AliasRead(n: Node, t: Table, k: nat)
    requires Separated(t) && k < |t.aliases| && NoField(t, k) && Flatten(n, t).Ok?
    ensures Get(Flatten(n, t).value, t.aliases[k].current) == Effective(n, t.Moves(), t.aliases[k].current)
  {
    AliasAt(t, k);
    PreparedReads(n, t);
    FieldsApart(t);
    AliasBesideFields(t, k);
    RunBackFrame(Prepared(n, t), t.fields, t.aliases[k].current);
    ExpandFrame(RunBack(Prepared(n, t), t.fields), n, t, t.families, t.aliases[k].current);
  }

  /** Main result: the decoder finds every setting's effective value at the path it reads. */
  lemma FlattenReadsEffective(n: Node, t: Table)
    requires Separated(t) && Flatten(n, t).Ok?
    ensures var ms, r := t.Moves(), Flatten(n, t).value;
      && (forall k | 0 <= k < |t.fields| :: Get(r, t.fields[k].legacy) == Effective(n, ms, t.fields[k].current))
      && (forall k | 0 <= k < |t.aliases| && NoField(t, k) ::
            Get(r, t.aliases[k].current) == Effective(n, ms, t.aliases[k].current))
  {
    var ms, r := t.Moves(), Flatten(n, t).value;
    forall k | 0 <= k < |t.fields| ensures Get(r, t.fields[k].legacy) == Effective(n, ms, t.fields[k].current) {
      FieldRead(n, t, k);
    }
    forall k | 0 <= k < |t.aliases| && NoField(t, k)
      ensures Get(r, t.aliases[k].current) == Effective(n, ms, t.aliases[k].current)
    {
      AliasRead(n, t, k);
    }
  }

  ghost predicate FieldsFit(f: Move, g: Move, same: bool) {
    && f.legacy != [] && f.current != [] && !Comparable(f.legacy, g.current)
    && (f.current == g.current || !Comparable(f.current, g.current))
    && (!same ==> !Comparable(f.legacy, g.legacy))
  }

  lemma FieldPair(t: Table, j: nat, k: nat)
    requires Separated(t) && j < |t.fields| && k < |t.fields|
    ensures FieldsFit(t.fields[j], t.fields[k], j == k)
  {
    FieldAt(t, j);
    FieldAt(t, k);
  }

  lemma FieldsApart(t: Table)
    requires Separated(t)
    ensures LeavesApart(t.fields)
    ensures forall k, f | 0 <= k < |t.fields| && 0 <= f < |t.families| :: !Comparable(t.families[f].move.legacy, t.fields[k].legacy)
  {
    forall j, k | 0 <= j < |t.fields| && 0 <= k < |t.fields| ensures FieldsFit(t.fields[j], t.fields[k], j == k) {
      FieldPair(t, j, k);
    }
    assert forall k | 0 <= k < |t.fields| :: FieldsFit(t.fields[k], t.fields[k], true);
    forall k, f | 0 <= k < |t.fields| && 0 <= f < |t.families|
      ensures !Comparable(t.families[f].move.legacy, t.fields[k].legacy)
    {
      FieldAt(t, k);
    }
  }

  /** Credentials: v8 groups by presence, expanded, else the legacy list as it stands. */
  lemma FlattenReadsFamilies(n: Node, t: Table)
    requires Separated(t) && Flatten(n, t).Ok?
    ensures forall k | 0 <= k < |t.families| ::
      Get(Flatten(n, t).value, t.families[k].move.legacy) == FamilyKeys(n, n, t, t.families[k])
  {
    var root := Prepared(n, t);
    PreparedReads(n, t);
    forall k | 0 <= k < |t.families|
      ensures Get(Flatten(n, t).value, t.families[k].move.legacy) == FamilyKeys(n, n, t, t.families[k])
    {
      FamilyBesideTables(t, k);
      PreparedKeeps(n, t, t.families[k].move.legacy);
      ExpandAt(RunBack(root, t.fields), n, t, t.families, k);
    }
  }

  /** The path lies beside everything flattening moves. */
  ghost predicate BesideTables(t: Table, q: Path) {
    && (forall i | 0 <= i < |t.aliases| :: !Comparable(t.aliases[i].legacy, q) && !Comparable(t.aliases[i].current, q))
    && (forall i | 0 <= i < |t.fields| :: !Comparable(t.fields[i].legacy, q) && !Comparable(t.fields[i].current, q))
    && (forall i | 0 <= i < |t.sharedStructs| ::
          !Comparable(t.sharedStructs[i].legacy, q) && !Comparable(t.sharedStructs[i].current, q))
    && !Comparable(API_KEYS, q)
  }

  lemma FamilyBesideTables(t: Table, k: nat)
    requires Separated(t) && k < |t.families|
    ensures BesideTables(t, t.families[k].move.legacy)
  {
    var q := t.families[k].move.legacy;
    assert t.families[k] in t.families;
    forall i | 0 <= i < |t.aliases| ensures !Comparable(t.aliases[i].legacy, q) && !Comparable(t.aliases[i].current, q) {
      AliasAt(t, i);
    }
    forall i | 0 <= i < |t.fields| ensures !Comparable(t.fields[i].legacy, q) && !Comparable(t.fields[i].current, q) {
      FieldAt(t, i);
    }
    forall i | 0 <= i < |t.sharedStructs|
      ensures !Comparable(t.sharedStructs[i].legacy, q) && !Comparable(t.sharedStructs[i].current, q)
    {
      SharedAt(t, i);
    }
  }

  lemma SharedStructsApart(t: Table)
    requires Separated(t)
    ensures forall i | 0 <= i < |t.sharedStructs| ::
      t.sharedStructs[i].legacy != [] && !Comparable(t.sharedStructs[i].legacy, t.sharedStructs[i].current)
  {
    forall i | 0 <= i < |t.sharedStructs| ensures
      t.sharedStructs[i].legacy != [] && !Comparable(t.sharedStructs[i].legacy, t.sharedStructs[i].current)
    {
      SharedAt(t, i);
    }
  }

  lemma PreparedKeeps(n: Node, t: Table, q: Path)
    requires Separated(t) && Unique(n) && BesideTables(t, q)
    requires RunShared(RunAliases(n, t.aliases), t.sharedStructs).Ok?
    ensures Get(RunBack(Prepared(n, t), t.fields), q) == Get(n, q)
  {
    SharedStructsApart(t);
    var aliased := RunAliases(n, t.aliases);
    RunAliasesFrame(n, t.aliases, q);
    assert t.aliases[0..] == t.aliases;
    RunAliasesKeepSettings(n, t, 0);
    RunSharedFrame(aliased, t.sharedStructs, q);
    var root := RunShared(aliased, t.sharedStructs).value;
    GetDeleteOther(root, API_KEYS, q);
    DeleteUnique(root, API_KEYS);
    RunBackFrame(Prepared(n, t), t.fields, q);
  }

  /** What the decoder finds for the settings of a document is fixed by their effective values. */
  lemma SameEffectiveSameReads(n: Node, r: Node, t: Table)
    requires Separated(t) && Flatten(n, t).Ok? && Flatten(r, t).Ok?
    requires forall k | 0 <= k < |t.Moves()| ::
      Effective(r, t.Moves(), t.Moves()[k].current) == Effective(n, t.Moves(), t.Moves()[k].current)
    ensures forall k | 0 <= k < |t.fields| ::
      Get(Flatten(r, t).value, t.fields[k].legacy) == Get(Flatten(n, t).value, t.fields[k].legacy)
    ensures forall k | 0 <= k < |t.aliases| && NoField(t, k) ::
      Get(Flatten(r, t).value, t.aliases[k].current) == Get(Flatten(n, t).value, t.aliases[k].current)
  {
    forall k | 0 <= k < |t.fields| ensures
      Get(Flatten(r, t).value, t.fields[k].legacy) == Get(Flatten(n, t).value, t.fields[k].legacy)
    {
      FieldAt(t, k);
      FieldRead(n, t, k);
      FieldRead(r, t, k);
    }
    forall k | 0 <= k < |t.aliases| && NoField(t, k) ensures
      Get(Flatten(r, t).value, t.aliases[k].current) == Get(Flatten(n, t).value, t.aliases[k].current)
    {
      AliasAt(t, k);
      AliasRead(n, t, k);
      AliasRead(r, t, k);
    }
  }

  /** Whenever both documents are accepted, every setting reads the same. */
  lemma SettingsReadTheSame(n: Node, t: Table, migrate: bool)
    requires Separated(t) && Flatten(n, t).Ok? && Flatten(Normalize(n, t, migrate), t).Ok?
    ensures var before, after := Flatten(n, t).value, Flatten(Normalize(n, t, migrate), t).value;
      && (forall k | 0 <= k < |t.fields| :: Get(after, t.fields[k].legacy) == Get(before, t.fields[k].legacy))
      && (forall k | 0 <= k < |t.aliases| && NoField(t, k) ::
            Get(after, t.aliases[k].current) == Get(before, t.aliases[k].current))
  {
    NormalizeKeepsSettings(n, t, migrate);
    SameEffectiveSameReads(n, Normalize(n, t, migrate), t);
  }

  lemma FamilyAfterMigration(n: Node, t: Table, f: Family)
    requires Separated(t) && f in t.families && Unique(n)
    ensures var r := Normalize(n, t, true);
      FamilyKeys(r, r, t, f) ==
        if Get(n, f.move.current).None? && Get(n, f.move.legacy).Some? then
          match ExpandGroups(t.shared, GroupLegacyKeys(t.shared, Get(n, f.move.legacy).value, f.provider), f.provider, t.weightOk)
          case Ok(keys) => Some(keys)
          case Err(_) => None
        else FamilyKeys(n, n, t, f)
  {
    NormalizeMovesFamilies(n, t);
    NormalizeRemovesLegacy(n, t);
  }

  lemma FamilyReadable(n: Node, t: Table, k: nat)
    requires Separated(t) && k < |t.families| && Flatten(n, t).Ok? && Get(n, t.families[k].move.current).Some?
    ensures FamilyKeys(n, n, t, t.families[k]).Some?
  {
    ExpandSucceeds(RunBack(Prepared(n, t), t.fields), n, t, t.families);
  }

  /** Migrated credentials: groups stay, a legacy list comes back regrouped and expanded. */
  lemma MigratedFamily(n: Node, t: Table, k: nat)
    requires Separated(t) && k < |t.families| && Flatten(n, t).Ok? && Flatten(Normalize(n, t, true), t).Ok?
    ensures var f := t.families[k];
      var before, after := Get(Flatten(n, t).value, f.move.legacy), Get(Flatten(Normalize(n, t, true), t).value, f.move.legacy);
      if Get(n, f.move.current).Some? || before.None? then after == before
      else after.Some? && ExpandGroups(t.shared, GroupLegacyKeys(t.shared, before.value, f.provider), f.provider, t.weightOk) == Ok(after.value)
  {
    var f, r := t.families[k], Normalize(n, t, true);
    assert f in t.families;
    FlattenReadsFamilies(n, t);
    FlattenReadsFamilies(r, t);
    FamilyAfterMigration(n, t, f);
    NormalizeMovesFamilies(n, t);
    if Get(r, f.move.current).Some? { FamilyReadable(r, t, k); }
  }

  // ---- a migrated file is accepted again --------------------------------------

  lemma SetContainer(n: Node, p: Path, v: Node, q: Path)
    requires ContainerOk(n, q) && !(p <= q)
    ensures ContainerOk(Set(n, p, v), q)
  {
    if q <= p {
      ProperPrefix(q, p);
      GetSetAncestor(n, p, v, q);
    } else {
      GetSetOther(n, p, v, q);
    }
  }

  lemma SetEmptyContainer(n: Node, p: Path, q: Path)
    requires ContainerOk(n, q)
    ensures ContainerOk(Set(n, p, EMPTY_MAP), q)
  {
    if p <= q { GetSetBelow(n, p, EMPTY_MAP, q); } else { SetContainer(n, p, EMPTY_MAP, q); }
  }

  lemma DeleteContainer(n: Node, p: Path, q: Path)
    requires Unique(n) && p != [] && q != [] && ContainerOk(n, q)
    ensures ContainerOk(Delete(n, p), q)
  {
    if p <= q {
      GetDeleteBelow(n, p, q);
    } else if q <= p {
      ProperPrefix(q, p);
      if Get(n, p).Some? { GetDeleteAncestor(n, p, q); } else { DeleteAbsent(n, p); }
    } else {
      GetDeleteOther(n, p, q);
    }
  }

  lemma StepContainer(n: Node, m: Move, migrate: bool, q: Path)
    requires Unique(n) && m.legacy != [] && q != [] && ContainerOk(n, q)
    requires !(m.current <= q) || Bare(n, m.legacy)
    ensures ContainerOk(StepMove(n, m, migrate), q)
  {
    DeleteContainer(n, m.legacy, q);
    if Get(n, m.legacy).Some? {
      if m.current <= q {
        SetEmptyContainer(Delete(n, m.legacy), m.current, q);
      } else {
        SetContainer(Delete(n, m.legacy), m.current, Get(n, m.legacy).value, q);
      }
    }
  }

  lemma {:induction false} RunLeavesContainer(n: Node, ms: seq<Move>, migrate: bool, q: Path)
    requires Unique(n) && q != [] && ContainerOk(n, q)
    requires forall i | 0 <= i < |ms| :: ms[i].legacy != [] && !(ms[i].current <= q)
    ensures forall m | m in ms :: m.legacy != []
    ensures ContainerOk(RunMoves(n, ms, migrate), q)
    decreases |ms|
  {
    if ms != [] {
      StepUnique(n, ms[0], migrate);
      StepContainer(n, ms[0], migrate, q);
      RunLeavesContainer(StepMove(n, ms[0], migrate), ms[1..], migrate, q);
    }
  }

  lemma {:induction false} RunContainersContainer(n: Node, cs: seq<Move>, migrate: bool, q: Path)
    requires Unique(n) && q != [] && ContainerOk(n, q)
    requires forall k | 0 <= k < |cs| :: cs[k].legacy != [] && cs[k].legacy != API_KEYS && Bare(n, cs[k].legacy)
    requires forall j, k | 0 <= j < |cs| && 0 <= k < |cs| :: !(cs[j].legacy <= cs[k].current)
    requires forall k | 0 <= k < |cs| :: !(cs[k].current <= cs[k].legacy)
    ensures forall m | m in cs :: m.legacy != []
    ensures ContainerOk(RunMoves(n, cs, migrate), q)
    decreases |cs|
  {
    if cs != [] {
      var next := StepMove(n, cs[0], migrate);
      StepUnique(n, cs[0], migrate);
      StepContainer(n, cs[0], migrate, q);
      forall k | 0 <= k < |cs[1..]| ensures Bare(next, cs[1..][k].legacy) {
        ContainerStepBare(n, cs[0], migrate, cs[k + 1].legacy);
      }
      RunContainersContainer(next, cs[1..], migrate, q);
    }
  }

  lemma {:induction false} ReviveContainer(n: Node, cs: seq<Move>, migrate: bool, q: Path)
    requires ContainerOk(n, q)
    ensures ContainerOk(ReviveContainers(n, cs, migrate).0, q)
    decreases |cs|
  {
    if cs != [] {
      SetEmptyContainer(n, cs[0].legacy, q);
      ReviveContainer(n, cs[1..], migrate, q);
      ReviveContainer(Set(n, cs[0].legacy, EMPTY_MAP), cs[1..], migrate, q);
    }
  }

  lemma {:induction false} RunFamiliesContainer(n: Node, t: Table, fs: seq<Family>, migrate: bool, q: Path)
    requires Unique(n) && q != [] && ContainerOk(n, q)
    requires forall k | 0 <= k < |fs| :: fs[k].move.legacy != [] && !(fs[k].move.current <= q)
    ensures forall f | f in fs :: f.move.legacy != []
    ensures ContainerOk(RunFamilies(n, t, fs, migrate), q)
    decreases |fs|
  {
    if fs != [] {
      var m := fs[0].move;
      FamilyUnique(n, t, fs[0], migrate);
      DeleteContainer(n, m.legacy, q);
      if Get(n, m.legacy).Some? {
        var groups := GroupLegacyKeys(t.shared, Get(n, m.legacy).value, fs[0].provider);
        GetUnique(n, m.legacy);
        GroupLegacyUnique(t.shared, Get(n, m.legacy).value, fs[0].provider);
        SetUnique(n, m.current, groups);
        SetContainer(n, m.current, groups, q);
        DeleteContainer(Set(n, m.current, groups), m.legacy, q);
      }
      RunFamiliesContainer(StepFamily(n, t, fs[0], migrate), t, fs[1..], migrate, q);
    }
  }

  lemma MovedKeepsContainer(n: Node, t: Table, q: Path)
    requires Separated(t) && Unique(n) && q != [] && ContainerOk(n, q)
    requires forall i | 0 <= i < |t.Moves()| :: !(t.Moves()[i].current <= q)
    ensures Unique(Moved(n, t, true)) && ContainerOk(Moved(n, t, true), q)
  {
    var (revived, queued) := ReviveContainers(n, t.Containers(), true);
    ReviveContainer(n, t.Containers(), true, q);
    ReviveQuiet(n, t.Containers(), true, []);
    RunLeavesContainer(revived, t.Moves(), true, q);
    QueueReady(n, t, true);
    RunContainersContainer(RunMoves(revived, t.Moves(), true), queued, true, q);
    MovedKeepsSettings(n, t, true);
  }

  lemma NormalizeKeepsContainer(n: Node, t: Table, q: Path)
    requires Separated(t) && Unique(n) && q != [] && ContainerOk(n, q)
    requires forall i | 0 <= i < |t.Moves()| :: !(t.Moves()[i].current <= q)
    requires forall k | 0 <= k < |t.families| :: !(t.families[k].move.current <= q)
    requires !(VERSION <= q)
    ensures ContainerOk(Normalize(n, t, true), q)
  {
    MovedKeepsContainer(n, t, q);
    RunFamiliesContainer(Moved(n, t, true), t, t.families, true, q);
    var grouped := RunFamilies(Moved(n, t, true), t, t.families, true);
    DropKeepsKind(grouped, [], q, t.known);
    SetContainer(DropUnknown(grouped, [], t.known), VERSION, VERSION_8, q);
  }

  lemma AncestorClear(t: Table, i: nat, k: nat)
    requires Separated(t) && i < |t.Moves()| && 0 < k < |t.Moves()[i].current|
    ensures var q := t.Moves()[i].current[..k];
      && (forall j | 0 <= j < |t.Moves()| :: !(t.Moves()[j].current <= q))
      && (forall j | 0 <= j < |t.families| :: !(t.families[j].move.current <= q))
      && !(VERSION <= q)
  {
    var c := t.Moves()[i].current;
    forall j | 0 <= j < |t.Moves()| ensures !(t.Moves()[j].current <= c[..k]) { ShorterPrefix(t.Moves()[j].current, c, k); }
    forall j | 0 <= j < |t.families| ensures !(t.families[j].move.current <= c[..k]) {
      ShorterPrefix(t.families[j].move.current, c, k);
    }
    ShorterPrefix(VERSION, c, k);
  }

  lemma ShorterPrefix(p: Path, c: Path, k: nat)
    requires k < |c|
    ensures p <= c[..k] ==> p <= c && p != c
  {
    if p <= c[..k] { assert p == c[..|p|]; }
  }

  /** A legacy list of this family, if it is what counts, can be grouped and read back. */
  ghost predicate ReadsBack(n: Node, t: Table, f: Family) {
    Get(n, f.move.current).None? && Get(n, f.move.legacy).Some? ==>
      ExpandGroups(t.shared, GroupLegacyKeys(t.shared, Get(n, f.move.legacy).value, f.provider), f.provider, t.weightOk).Ok?
  }

  /** Of a migrated file only the credentials are left to check. */
  lemma NormalizedShape(n: Node, t: Table)
    requires Separated(t) && Unique(n) && ContainersOk(n, t.Moves())
    ensures var r := Normalize(n, t, true);
      && r.Mapping? && Unique(r) && ContainersOk(r, t.Moves()) && VersionOk(r)
      && RunShared(RunAliases(r, t.aliases), t.sharedStructs) == Ok(r)
  {
    var r := Normalize(n, t, true);
    GroupedKeepsSettings(n, t, true);
    var grouped := RunFamilies(Moved(n, t, true), t, t.families, true);
    DropUnique(grouped, [], t.known);
    SetUnique(DropUnknown(grouped, [], t.known), VERSION, VERSION_8);
    NormalizeRemovesLegacy(n, t);
    NothingToMove(r, t);
    forall i, k | 0 <= i < |t.Moves()| && 0 < k < |t.Moves()[i].current|
      ensures ContainerOk(r, t.Moves()[i].current[..k])
    {
      AncestorClear(t, i, k);
      NormalizeKeepsContainer(n, t, t.Moves()[i].current[..k]);
    }
  }

  /** A migrated file is accepted exactly if the legacy credential lists it replaces can be read back. */
  lemma NormalizeAccepted(n: Node, t: Table)
    requires Separated(t) && Flatten(n, t).Ok?
    ensures Flatten(Normalize(n, t, true), t).Ok? <==> forall k | 0 <= k < |t.families| :: ReadsBack(n, t, t.families[k])
  {
    var r := Normalize(n, t, true);
    NormalizedShape(n, t);
    AcceptedFamilies(n, t);
    ExpandSucceeds(RunBack(DropKeyMapping(r), t.fields), r, t, t.families);
  }

  lemma NothingToMove(n: Node, t: Table)
    requires Separated(t) && AbsentBefore(n, t.Moves(), |t.Moves()|)
    requires forall c | c in t.Containers() :: Get(n, c.legacy).None?
    ensures RunShared(RunAliases(n, t.aliases), t.sharedStructs) == Ok(n)
  {
    forall i | 0 <= i < |t.aliases| ensures Get(n, t.aliases[i].legacy).None? {
      assert t.aliases[i] == t.Moves()[i];
    }
    NoAliases(n, t.aliases);
    forall k | 0 <= k < |t.sharedStructs| ensures Get(n, t.sharedStructs[k].legacy).None? {
      assert t.sharedStructs[k] == t.Containers()[|t.structs| + k];
    }
    NoShared(n, t.sharedStructs);
  }

  lemma NoAliases(n: Node, ms: seq<Move>)
    requires forall i | 0 <= i < |ms| :: ms[i].legacy != [] && Get(n, ms[i].legacy).None?
    ensures forall m | m in ms :: m.legacy != []
    ensures RunAliases(n, ms) == n
  {
  }

  lemma NoShared(n: Node, cs: seq<Move>)
    requires forall i | 0 <= i < |cs| :: cs[i].legacy != [] && Get(n, cs[i].legacy).None?
    ensures forall m | m in cs :: m.legacy != []
    ensures RunShared(n, cs) == Ok(n)
  {
  }

  lemma AcceptedFamilies(n: Node, t: Table)
    requires Separated(t) && Flatten(n, t).Ok?
    ensures forall k | 0 <= k < |t.families| :: var g := Get(Normalize(n, t, true), t.families[k].move.current);
      (g.Some? ==> ExpandGroups(t.shared, g.value, t.families[k].provider, t.weightOk).Ok?) <==> ReadsBack(n, t, t.families[k])
  {
    NormalizeMovesFamilies(n, t);
    ExpandSucceeds(RunBack(Prepared(n, t), t.fields), n, t, t.families);
    forall k | 0 <= k < |t.families| ensures var g := Get(Normalize(n, t, true), t.families[k].move.current);
      (g.Some? ==> ExpandGroups(t.shared, g.value, t.families[k].provider, t.weightOk).Ok?) <==> ReadsBack(n, t, t.families[k])
    {
      assert t.families[k] in t.families;
      GroupsReadBack(n, t, t.families[k], Get(Normalize(n, t, true), t.families[k].move.current));
    }
  }

  lemma GroupsReadBack(n: Node, t: Table, f: Family, g: Option<Node>)
    requires g == FamilyGroups(n, t, f)
    requires Get(n, f.move.current).Some? ==> ExpandGroups(t.shared, Get(n, f.move.current).value, f.provider, t.weightOk).Ok?
    ensures (g.Some? ==> ExpandGroups(t.shared, g.value, f.provider, t.weightOk).Ok?) <==> ReadsBack(n, t, f)
  {
  }

  // ---- credentials --------------------------------------------------------------

  ghost predicate PlainList(n: Node) {
    n.Sequence? && forall i | 0 <= i < |n.items| :: PlainEntry(n.items[i])
  }

  /** The same credentials in the same order, but for what the v8 layout does not carry. */
  ghost predicate SameList(shared: set<string>, before: Node, after: Node) {
    && before.Sequence? && after.Sequence? && |after.items| == |before.items|
    && forall i | 0 <= i < |before.items| :: SameFieldsUnlessDropped(shared, before.items[i], after.items[i])
  }

  lemma PlainListReadsBack(t: Table, list: Node, provider: string)
    requires FieldNames(t.shared) && PlainList(list) && provider != OPENAI
    ensures var r := ExpandGroups(t.shared, GroupLegacyKeys(t.shared, list, provider), provider, t.weightOk);
      (r.Ok? <==> WeightsOk(list.items, t.weightOk)) && (r.Ok? ==> SameList(t.shared, list, r.value))
  {
    GroupRoundTrip(t.shared, list.items, provider, 0, t.weightOk);
  }
}
