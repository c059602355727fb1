/**
 What holds of a file that is loaded: it is tidied without being migrated, and the result is
 always accepted and read the same.  With this and NormalizeAccepted, the theorems on what the
 runtime reads need no assumption about the rewritten document.
 */
module TidyTheorems {
  import opened Wrappers
  import opened YamlTree
  import opened KeyGroups
  import opened LayoutMigration
  import opened MigrationTheorems
  import opened FlattenTheorems

  // ---- tidying only prunes and revives --------------------------------------------

  /** At the path the later document has what the earlier one has, less of a mapping, or nothing. */
  predicate ShrunkAt(n: Node, r: Node, q: Path) {
    Get(r, q).Some? ==>
      Get(n, q).Some? &&
      (Get(r, q) == Get(n, q) || (Get(r, q).value.Mapping? && (Get(n, q).value.Mapping? || IsNull(Get(n, q).value))))
  }

  lemma ShrunkTwice(n: Node, m: Node, r: Node, q: Path)
    requires ShrunkAt(n, m, q) && ShrunkAt(m, r, q)
    ensures ShrunkAt(n, r, q)
  {
  }

  lemma AncestorIsMapping(n: Node, p: Path, q: Path)
    requires q < p && Get(n, p).Some?
    ensures Get(n, q).Some? && Get(n, q).value.Mapping?
  {
    if Get(n, q).None? || !Get(n, q).value.Mapping? { GetBelowLeaf(n, q, p); }
  }

  lemma DeleteShrinks(n: Node, p: Path, q: Path)
    requires Unique(n) && p != []
    ensures ShrunkAt(n, Delete(n, p), q)
  {
    if Get(n, p).None? {
      DeleteAbsent(n, p);
    } else if p <= q {
      GetDeleteBelow(n, p, q);
    } else if q <= p {
      ProperPrefix(q, p);
      AncestorIsMapping(n, p, q);
      if q != [] { GetDeleteAncestor(n, p, q); }
    } else {
      GetDeleteOther(n, p, q);
    }
  }

  lemma ReviveShrinks(n: Node, p: Path, q: Path)
    requires Hollow(Get(n, p))
    ensures ShrunkAt(n, Set(n, p, EMPTY_MAP), q)
  {
    if p == q {
      GetSetSame(n, p, EMPTY_MAP);
    } else if p <= q {
      ProperPrefix(p, q);
      GetSetBelow(n, p, EMPTY_MAP, q);
    } else if q <= p {
      ProperPrefix(q, p);
      AncestorIsMapping(n, p, q);
      GetSetAncestor(n, p, EMPTY_MAP, q);
    } else {
      GetSetOther(n, p, EMPTY_MAP, q);
    }
  }

  lemma {:induction false} RevivingShrinks(n: Node, cs: seq<Move>, q: Path)
    requires Unique(n)
    ensures var r := ReviveContainers(n, cs, false).0; Unique(r) && ShrunkAt(n, r, q)
    decreases |cs|
  {
    if cs != [] {
      if !Hollow(Get(n, cs[0].legacy)) || Get(n, cs[0].current).None? {
        RevivingShrinks(n, cs[1..], q);
      } else {
        var next := Set(n, cs[0].legacy, EMPTY_MAP);
        SetUnique(n, cs[0].legacy, EMPTY_MAP);
        ReviveShrinks(n, cs[0].legacy, q);
        RevivingShrinks(next, cs[1..], q);
        ShrunkTwice(n, next, ReviveContainers(next, cs[1..], false).0, q);
      }
    }
  }

  lemma {:induction false} MovingShrinks(n: Node, ms: seq<Move>, q: Path)
    requires Unique(n) && forall m | m in ms :: m.legacy != []
    ensures Unique(RunMoves(n, ms, false)) && ShrunkAt(n, RunMoves(n, ms, false), q)
    decreases |ms|
  {
    if ms != [] {
      var next := StepMove(n, ms[0], false);
      StepUnique(n, ms[0], false);
      DeleteShrinks(n, ms[0].legacy, q);
      MovingShrinks(next, ms[1..], q);
      ShrunkTwice(n, next, RunMoves(next, ms[1..], false), q);
    }
  }

  lemma {:induction false} GroupingShrinks(n: Node, t: Table, fs: seq<Family>, q: Path)
    requires Unique(n) && forall f | f in fs :: f.move.legacy != []
    ensures Unique(RunFamilies(n, t, fs, false)) && ShrunkAt(n, RunFamilies(n, t, fs, false), q)
    decreases |fs|
  {
    if fs != [] {
      var next := StepFamily(n, t, fs[0], false);
      FamilyUnique(n, t, fs[0], false);
      DeleteShrinks(n, fs[0].move.legacy, q);
      GroupingShrinks(next, t, fs[1..], q);
      ShrunkTwice(n, next, RunFamilies(next, t, fs[1..], false), q);
    }
  }

  /** Rewriting without migrating makes nothing but empty mappings out of nulls. */
  lemma TidyShrinks(n: Node, t: Table, q: Path)
    requires t.Paths() && Unique(n)
    ensures Unique(Normalize(n, t, false)) && ShrunkAt(n, Normalize(n, t, false), q)
  {
    var (revived, queued) := ReviveContainers(n, t.Containers(), false);
    var once := RunMoves(revived, t.Moves(), false);
    var moved := RunMoves(once, queued, false);
    RevivingShrinks(n, t.Containers(), q);
    MovingShrinks(revived, t.Moves(), q);
    MovingShrinks(once, queued, q);
    GroupingShrinks(moved, t, t.families, q);
    ShrunkTwice(n, revived, once, q);
    ShrunkTwice(n, once, moved, q);
    ShrunkTwice(n, moved, Normalize(n, t, false), q);
  }

  // ---- historical containers --------------------------------------------------------

  /** Neither a mapping nor null stands at the path. */
  predicate Blocked(n: Node, q: Path) {
    Get(n, q).Some? && !Get(n, q).value.Mapping? && !IsNull(Get(n, q).value)
  }

  lemma AliasKeepsBlocked(n: Node, m: Move, q: Path)
    requires Unique(n) && m.legacy != [] && q != []
    requires !(m.legacy <= q) && !Comparable(m.current, q)
    ensures Blocked(StepAlias(n, m), q) <==> Blocked(n, q)
  {
    if Get(n, m.legacy).Some? {
      var v := Get(n, m.legacy).value;
      var stored := if Get(n, m.current).None? then Set(n, m.current, v) else n;
      GetUnique(n, m.legacy);
      SetUnique(n, m.current, v);
      GetSetOther(n, m.current, v, q);
      if q <= m.legacy {
        ProperPrefix(q, m.legacy);
        AncestorIsMapping(n, m.legacy, q);
      }
      DeleteShrinks(stored, m.legacy, q);
      if !Comparable(m.legacy, q) { GetDeleteOther(stored, m.legacy, q); }
    }
  }

  lemma {:induction false} AliasesKeepBlocked(n: Node, ms: seq<Move>, q: Path)
    requires Unique(n) && q != []
    requires forall i | 0 <= i < |ms| :: ms[i].legacy != [] && !(ms[i].legacy <= q) && !Comparable(ms[i].current, q)
    ensures forall m | m in ms :: m.legacy != []
    ensures Unique(RunAliases(n, ms)) && (Blocked(RunAliases(n, ms), q) <==> Blocked(n, q))
    decreases |ms|
  {
    if ms != [] {
      AliasUnique(n, ms[0]);
      AliasKeepsBlocked(n, ms[0], q);
      AliasesKeepBlocked(StepAlias(n, ms[0]), ms[1..], q);
    }
  }

  /** Moving a hollow container neither puts anything in the way nor takes it away. */
  lemma SharedKeepsBlocked(n: Node, m: Move, q: Path)
    requires Unique(n) && m.legacy != [] && q != [] && !(q <= m.current) && !(m.legacy <= m.current)
    requires StepShared(n, m).Ok?
    ensures Blocked(StepShared(n, m).value, q) <==> Blocked(n, q)
  {
    if Hollow(Get(n, m.legacy)) {
      var stored := if Get(n, m.current).None? then Set(n, m.current, EMPTY_MAP) else n;
      SetUnique(n, m.current, EMPTY_MAP);
      if Get(n, m.current).None? { QuietSet(n, m.current, q); }
      assert Get(stored, q) == Get(n, q);
      if q <= m.legacy && q != m.legacy {
        ProperPrefix(q, m.legacy);
        AncestorIsMapping(n, m.legacy, q);
      } else if m.legacy <= q && q != m.legacy {
        ProperPrefix(m.legacy, q);
        GetBelowLeaf(n, m.legacy, q);
      }
      DeleteShrinks(stored, m.legacy, q);
      if !Comparable(m.legacy, q) { GetDeleteOther(stored, m.legacy, q); }
    }
  }

  /** The historical containers are accepted exactly if nothing stands in their way at the start. */
  lemma {:induction false} SharedAccepted(n: Node, cs: seq<Move>)
    requires Unique(n)
    requires forall k | 0 <= k < |cs| :: cs[k].legacy != []
    requires forall j, k | 0 <= j < |cs| && 0 <= k < |cs| :: !(cs[j].legacy <= cs[k].current)
    ensures forall m | m in cs :: m.legacy != []
    ensures RunShared(n, cs).Ok? <==> forall k | 0 <= k < |cs| :: !Blocked(n, cs[k].legacy)
    decreases |cs|
  {
    if cs != [] {
      assert forall k | 1 <= k < |cs| :: cs[k] == cs[1..][k - 1];
      if StepShared(n, cs[0]).Ok? {
        var next := StepShared(n, cs[0]).value;
        SharedUnique(n, cs[0]);
        SharedAccepted(next, cs[1..]);
        forall k | 1 <= k < |cs| ensures Blocked(next, cs[k].legacy) <==> Blocked(n, cs[k].legacy) {
          SharedKeepsBlocked(n, cs[0], cs[k].legacy);
        }
      }
    }
  }

  /** Aliases and containers can be resolved exactly if no historical container is blocked. */
  lemma PreparedAccepted(n: Node, t: Table)
    requires Separated(t) && Unique(n)
    ensures RunShared(RunAliases(n, t.aliases), t.sharedStructs).Ok? <==>
      forall k | 0 <= k < |t.sharedStructs| :: !Blocked(n, t.sharedStructs[k].legacy)
  {
    var cs := t.sharedStructs;
    assert t.aliases[0..] == t.aliases;
    RunAliasesKeepSettings(n, t, 0);
    forall k | 0 <= k < |cs|
      ensures cs[k].legacy != [] && (Blocked(RunAliases(n, t.aliases), cs[k].legacy) <==> Blocked(n, cs[k].legacy))
    {
      assert t.Containers()[|t.structs| + k] == cs[k];
      forall i | 0 <= i < |t.aliases|
        ensures t.aliases[i].legacy != [] && !(t.aliases[i].legacy <= cs[k].legacy) && !Comparable(t.aliases[i].current, cs[k].legacy)
      {
        assert t.Moves()[i] == t.aliases[i];
      }
      AliasesKeepBlocked(n, t.aliases, cs[k].legacy);
    }
    forall j, k | 0 <= j < |cs| && 0 <= k < |cs| ensures !(cs[j].legacy <= cs[k].current) {
      assert t.Containers()[|t.structs| + k] == cs[k] && t.Containers()[|t.structs| + j] == cs[j];
    }
    SharedAccepted(RunAliases(n, t.aliases), cs);
  }

  // ---- the version and the credentials -------------------------------------------------

  lemma VersionBesideContainers(t: Table)
    requires Separated(t)
    ensures forall k | 0 <= k < |t.sharedStructs| :: var c := t.sharedStructs[k];
      && c.legacy != [] && !Comparable(c.legacy, c.current) && !(VERSION <= c.legacy) && !(VERSION <= c.current)
  {
    forall k | 0 <= k < |t.sharedStructs| ensures var c := t.sharedStructs[k];
      && c.legacy != [] && !Comparable(c.legacy, c.current) && !(VERSION <= c.legacy) && !(VERSION <= c.current)
    {
      var c := t.sharedStructs[k];
      SharedAt(t, k);
    }
  }

  lemma PreparedVersion(n: Node, t: Table)
    requires Separated(t) && Unique(n) && RunShared(RunAliases(n, t.aliases), t.sharedStructs).Ok?
    ensures Get(RunShared(RunAliases(n, t.aliases), t.sharedStructs).value, VERSION) == Get(n, VERSION)
  {
    assert t.aliases[0..] == t.aliases;
    RunAliasesKeepSettings(n, t, 0);
    forall i | 0 <= i < |t.aliases| ensures t.aliases[i] == t.Moves()[i] {}
    RunAliasesFrame(n, t.aliases, VERSION);
    VersionBesideContainers(t);
    RunSharedFrame(RunAliases(n, t.aliases), t.sharedStructs, VERSION);
  }

  lemma StepKeepsOther(n: Node, t: Table, f: Family, q: Path)
    requires Unique(n) && f.move.legacy != [] && !Comparable(f.move.legacy, q)
    ensures Get(StepFamily(n, t, f, false), q) == Get(n, q)
  {
    GetDeleteOther(n, f.move.legacy, q);
  }

  lemma StepDropsList(n: Node, t: Table, f: Family)
    requires Unique(n) && f.move.legacy != []
    ensures Get(StepFamily(n, t, f, false), f.move.legacy) ==
      if Get(n, f.move.current).Some? then None else Get(n, f.move.legacy)
  {
    GetDeleteSame(n, f.move.legacy);
  }

  ghost predicate OthersLists(fs: seq<Family>, q: Path) {
    forall i | 0 <= i < |fs| :: fs[i].move.legacy != [] && !Comparable(fs[i].move.legacy, q)
  }

  lemma {:induction false} GroupingKeepsOther(n: Node, t: Table, fs: seq<Family>, q: Path)
    requires Unique(n) && OthersLists(fs, q)
    ensures forall f | f in fs :: f.move.legacy != []
    ensures Unique(RunFamilies(n, t, fs, false)) && Get(RunFamilies(n, t, fs, false), q) == Get(n, q)
    decreases |fs|
  {
    if fs != [] {
      FamilyUnique(n, t, fs[0], false);
      StepKeepsOther(n, t, fs[0], q);
      GroupingKeepsOther(StepFamily(n, t, fs[0], false), t, fs[1..], q);
    }
  }

  /** Without migrating a list goes only if there are groups. */
  lemma {:induction false} GroupingDropsList(n: Node, t: Table, fs: seq<Family>, k: nat)
    requires Unique(n) && k < |fs|
    requires OthersLists(fs[..k], fs[k].move.legacy) && OthersLists(fs[k + 1..], fs[k].move.legacy)
    requires OthersLists(fs[..k], fs[k].move.current) && fs[k].move.legacy != []
    ensures forall f | f in fs :: f.move.legacy != []
    ensures Get(RunFamilies(n, t, fs, false), fs[k].move.legacy) ==
      if Get(n, fs[k].move.current).Some? then None else Get(n, fs[k].move.legacy)
    decreases k
  {
    assert fs == fs[..k] + [fs[k]] + fs[k + 1..];
    var next := StepFamily(n, t, fs[0], false);
    if k == 0 {
      FamilyUnique(n, t, fs[0], false);
      StepDropsList(n, t, fs[0]);
      GroupingKeepsOther(next, t, fs[1..], fs[0].move.legacy);
    } else {
      assert fs[..k][0] == fs[0] && fs[1..][..k - 1] == fs[..k][1..] && fs[1..][k..] == fs[k + 1..];
      FamilyUnique(n, t, fs[0], false);
      StepKeepsOther(n, t, fs[0], fs[k].move.legacy);
      StepKeepsOther(n, t, fs[0], fs[k].move.current);
      GroupingDropsList(next, t, fs[1..], k - 1);
    }
  }

  lemma FamiliesBesideEachOther(t: Table, k: nat)
    requires FamiliesApart(t.Moves(), t.families) && k < |t.families|
    ensures var fs, m := t.families, t.families[k].move;
      && m.legacy != [] && OthersLists(fs, m.current) && OthersLists(fs[..k], m.current)
      && OthersLists(fs[..k], m.legacy) && OthersLists(fs[k + 1..], m.legacy)
  {
  }

  lemma TidyKeepsFamily(n: Node, t: Table, k: nat)
    requires Separated(t) && Unique(n) && k < |t.families|
    ensures var m, r := t.families[k].move, Normalize(n, t, false);
      && Get(r, m.current) == Get(n, m.current)
      && Get(r, m.legacy) == if Get(n, m.current).Some? then None else Get(n, m.legacy)
  {
    MovedKeepsSettings(n, t, false);
    MovedKeepsFamily(n, t, false, k);
    FamiliesBesideEachOther(t, k);
    GroupingKeepsOther(Moved(n, t, false), t, t.families, t.families[k].move.current);
    GroupingDropsList(Moved(n, t, false), t, t.families, k);
  }

  // ---- what the runtime reads ------------------------------------------------------------

  /** Everything but the credentials of a tidied document is as acceptable as before. */
  lemma TidyContainers(n: Node, t: Table)
    requires Separated(t) && Flatten(n, t).Ok?
    ensures var r := Normalize(n, t, false); r.Mapping? && Unique(r) && ContainersOk(r, t.Moves())
  {
    var r := Normalize(n, t, false);
    TidyShrinks(n, t, []);
    forall i, k | 0 <= i < |t.Moves()| && 0 < k < |t.Moves()[i].current| ensures ContainerOk(r, t.Moves()[i].current[..k]) {
      TidyShrinks(n, t, t.Moves()[i].current[..k]);
    }
  }

  lemma TidyShape(n: Node, t: Table)
    requires Separated(t) && Flatten(n, t).Ok?
    ensures var r := Normalize(n, t, false);
      && r.Mapping? && Unique(r) && ContainersOk(r, t.Moves())
      && RunShared(RunAliases(r, t.aliases), t.sharedStructs).Ok?
      && VersionOk(RunShared(RunAliases(r, t.aliases), t.sharedStructs).value)
  {
    var r := Normalize(n, t, false);
    TidyContainers(n, t);
    PreparedAccepted(n, t);
    PreparedAccepted(r, t);
    forall k | 0 <= k < |t.sharedStructs| ensures !Blocked(r, t.sharedStructs[k].legacy) {
      TidyShrinks(n, t, t.sharedStructs[k].legacy);
    }
    PreparedVersion(n, t);
    PreparedVersion(r, t);
    TidyShrinks(n, t, VERSION);
  }

  /** Main result: a document that is accepted is still accepted after it is tidied on load. */
  lemma TidyAccepted(n: Node, t: Table)
    requires Separated(t) && Flatten(n, t).Ok?
    ensures Flatten(Normalize(n, t, false), t).Ok?
  {
    var r := Normalize(n, t, false);
    TidyShape(n, t);
    ExpandSucceeds(RunBack(Prepared(n, t), t.fields), n, t, t.families);
    ExpandSucceeds(RunBack(Prepared(r, t), t.fields), r, t, t.families);
    forall k | 0 <= k < |t.families| && Get(r, t.families[k].move.current).Some?
      ensures ExpandGroups(t.shared, Get(r, t.families[k].move.current).value, t.families[k].provider, t.weightOk).Ok?
    {
      TidyKeepsFamily(n, t, k);
    }
  }

  /** The rewritten document is accepted: always without migrating, else if the lists read back. */
  ghost predicate ListsReadBack(n: Node, t: Table, migrate: bool) {
    migrate ==> forall k | 0 <= k < |t.families| :: ReadsBack(n, t, t.families[k])
  }

  lemma RewrittenAccepted(n: Node, t: Table, migrate: bool)
    requires Separated(t) && Flatten(n, t).Ok?
    ensures Flatten(Normalize(n, t, migrate), t).Ok? <==> ListsReadBack(n, t, migrate)
  {
    if migrate { NormalizeAccepted(n, t); } else { TidyAccepted(n, t); }
  }

  /** A file with an entry that is no mapping in a legacy list, a null for example, is rejected once migrated. */
  lemma NonMappingRejected(n: Node, t: Table, k: nat)
    requires Separated(t) && k < |t.families| && t.families[k].provider != OPENAI && Flatten(n, t).Ok?
    requires var m := t.families[k].move;
      && Get(n, m.current).None? && Get(n, m.legacy).Some? && Get(n, m.legacy).value.Sequence?
      && exists i | 0 <= i < |Get(n, m.legacy).value.items| :: !Get(n, m.legacy).value.items[i].Mapping?
    ensures Flatten(Normalize(n, t, true), t).Err? && Flatten(Normalize(n, t, false), t).Ok?
  {
    var f := t.families[k];
    NonMappingUnreadable(t.shared, Get(n, f.move.legacy).value.items, f.provider, 0, t.weightOk);
    assert !ReadsBack(n, t, f);
    NormalizeAccepted(n, t);
    TidyAccepted(n, t);
  }

  /** Main result: rewriting a file never changes what the runtime reads for a setting. */
  lemma RuntimeUnchanged(n: Node, t: Table, migrate: bool)
    requires Separated(t) && Flatten(n, t).Ok? && ListsReadBack(n, t, migrate)
    ensures var r := Normalize(n, t, migrate);
      && Flatten(r, t).Ok?
      && (forall k | 0 <= k < |t.fields| ::
            Get(Flatten(r, t).value, t.fields[k].legacy) == Get(Flatten(n, t).value, t.fields[k].legacy))
      && (forall k | 0 <= k < |t.aliases| && NoField(t, k) ::
            Get(Flatten(r, t).value, t.aliases[k].current) == Get(Flatten(n, t).value, t.aliases[k].current))
  {
    RewrittenAccepted(n, t, migrate);
    SettingsReadTheSame(n, t, migrate);
  }

  lemma TidiedFamily(n: Node, t: Table, k: nat)
    requires Separated(t) && k < |t.families| && Flatten(n, t).Ok? && Flatten(Normalize(n, t, false), t).Ok?
    ensures Get(Flatten(Normalize(n, t, false), t).value, t.families[k].move.legacy) ==
            Get(Flatten(n, t).value, t.families[k].move.legacy)
  {
    FlattenReadsFamilies(n, t);
    FlattenReadsFamilies(Normalize(n, t, false), t);
    TidyKeepsFamily(n, t, k);
  }

  /** Tidied credentials are read exactly as before; migrated ones as their grouping expands. */
  lemma FamiliesUnchanged(n: Node, t: Table, k: nat, migrate: bool)
    requires Separated(t) && k < |t.families| && Flatten(n, t).Ok? && ListsReadBack(n, t, migrate)
    ensures var f, r := t.families[k], Normalize(n, t, migrate);
      && Flatten(r, t).Ok?
      && var before, after := Get(Flatten(n, t).value, f.move.legacy), Get(Flatten(r, t).value, f.move.legacy);
         if !migrate || Get(n, f.move.current).Some? || before.None? then after == before
         else after.Some? &&
              ExpandGroups(t.shared, GroupLegacyKeys(t.shared, before.value, f.provider), f.provider, t.weightOk) == Ok(after.value)
  {
    RewrittenAccepted(n, t, migrate);
    if migrate { MigratedFamily(n, t, k); } else { TidiedFamily(n, t, k); }
  }

  /** Main result: rewriting leaves the runtime the credentials of a plain list, in the same order. */
  lemma CredentialsKept(n: Node, t: Table, k: nat, migrate: bool)
    requires Separated(t) && FieldNames(t.shared) && k < |t.families| && t.families[k].provider != OPENAI
    requires Flatten(n, t).Ok? && ListsReadBack(n, t, migrate)
    requires var f := t.families[k].move;
      Get(n, f.current).None? && Get(n, f.legacy).Some? && PlainList(Get(n, f.legacy).value)
    ensures var f, r := t.families[k].move, Normalize(n, t, migrate);
      && Flatten(r, t).Ok? && Get(Flatten(n, t).value, f.legacy) == Get(n, f.legacy)
      && var after := Get(Flatten(r, t).value, f.legacy);
         if migrate then after.Some? && SameList(t.shared, Get(n, f.legacy).value, after.value)
         else after == Get(n, f.legacy)
  {
    FlattenReadsFamilies(n, t);
    FamiliesUnchanged(n, t, k, migrate);
    PlainListReadsBack(t, Get(n, t.families[k].move.legacy).value, t.families[k].provider);
  }
}
