/**
 The layout rewrite preserves meaning: whatever a document configures, it configures
 the same after its legacy spellings were moved to the v8 layout.
 */
module MigrationTheorems {
  import opened Wrappers
  import opened YamlTree
  import opened LayoutMigration

  /** What the rewrite relies on about the path tables. */
  ghost predicate Separated(t: Table) {
    && t.Paths()
    && LeavesApart(t.Moves())
    && ContainersApart(t.Moves(), t.Containers())
    && FamiliesApart(t.Moves(), t.families)
    && (forall j, k | 0 <= j < k < |t.fields| :: t.fields[j].current != t.fields[k].current)
    && (forall i | 0 <= i < |t.Moves()| :: !Comparable(t.Moves()[i].current, API_KEYS))
    && (forall i | 0 <= i < |t.Moves()| :: t.Moves()[i].legacy == API_KEYS || !Comparable(t.Moves()[i].legacy, API_KEYS))
    && (forall i | 0 <= i < |t.aliases| :: t.aliases[i].legacy != API_KEYS)
    && OthersApart(t) && KnownPaths(t)
  }

  /** Where the parts of the tables stand among all moves and all containers. */
  lemma AliasAt(t: Table, k: nat)
    requires k < |t.aliases|
    ensures t.Moves()[k] == t.aliases[k]
  {
  }

  lemma FieldAt(t: Table, k: nat)
    requires k < |t.fields|
    ensures |t.aliases| + k < |t.Moves()| && t.Moves()[|t.aliases| + k] == t.fields[k]
  {
  }

  lemma SharedAt(t: Table, k: nat)
    requires k < |t.sharedStructs|
    ensures |t.structs| + k < |t.Containers()| && t.Containers()[|t.structs| + k] == t.sharedStructs[k]
    ensures t.sharedStructs[k] in t.Containers()
  {
    assert t.Containers()[|t.structs| + k] == t.sharedStructs[k];
  }

  /** Containers and the version stay clear of everything they are not an ancestor of. */
  ghost predicate OthersApart(t: Table) {
    && (forall c, f | c in t.Containers() && f in t.families ::
          && !Comparable(c.legacy, f.move.legacy) && !Comparable(c.legacy, f.move.current)
          && !Comparable(c.current, f.move.legacy) && !Comparable(c.current, f.move.current))
    && (forall c | c in t.Containers() :: !Comparable(c.legacy, VERSION) && !Comparable(c.current, VERSION))
    && (forall f | f in t.families :: !Comparable(f.move.legacy, VERSION) && !Comparable(f.move.current, VERSION))
    && (forall i | 0 <= i < |t.Moves()| ::
          !Comparable(t.Moves()[i].legacy, VERSION) && !Comparable(t.Moves()[i].current, VERSION))
  }

  /** The known keys cover every v8 path and no legacy container. */
  ghost predicate KnownPaths(t: Table) {
    && [] in t.known
    && (forall i | 0 <= i < |t.Moves()| :: Permitted([], t.Moves()[i].current, t.known))
    && (forall f | f in t.families :: Permitted([], f.move.current, t.known))
    && (forall c | c in t.Containers() :: Forbidden([], c.legacy, t.known))
    && Permitted([], VERSION, t.known)
  }

  // ---- the rewrite up to the families -------------------------------------

  /** A move leaves a family's place alone even when the family lives below the legacy key list. */
  lemma {:induction false} RunMovesAside(n: Node, ms: seq<Move>, migrate: bool, q: Path)
    requires Unique(n)
    requires forall i | 0 <= i < |ms| :: ms[i].legacy != [] && !Comparable(ms[i].current, q)
    requires forall i | 0 <= i < |ms| ::
      !Comparable(ms[i].legacy, q) || (ms[i].legacy == API_KEYS && API_KEYS <= q && q != API_KEYS)
    ensures forall m | m in ms :: m.legacy != []
    ensures Get(RunMoves(n, ms, migrate), q) == Get(n, q)
    decreases |ms|
  {
    if ms != [] {
      var m := ms[0];
      StepUnique(n, m, migrate);
      if !Comparable(m.legacy, q) {
        StepFrame(n, m, migrate, q);
      } else if LegacyGet(n, m.legacy).Some? {
        ProperPrefix(API_KEYS, q);
        GetBelowLeaf(n, API_KEYS, q);
        GetDeleteBelow(n, API_KEYS, q);
        GetSetOther(Delete(n, API_KEYS), m.current, Get(n, API_KEYS).value, q);
      }
      RunMovesAside(StepMove(n, m, migrate), ms[1..], migrate, q);
    }
  }

  lemma ContainerFacts(t: Table, c: Move, d: Move)
    requires Separated(t) && c in t.Containers() && d in t.Containers()
    ensures c.legacy != [] && c.legacy != API_KEYS && !(c.current <= c.legacy) && !(c.legacy <= d.current)
    ensures forall i | 0 <= i < |t.Moves()| ::
      t.Moves()[i].legacy != [] && !(t.Moves()[i].legacy <= c.legacy) && !Comparable(t.Moves()[i].current, c.legacy)
  {
    var i :| 0 <= i < |t.Containers()| && t.Containers()[i] == c;
    var l :| 0 <= l < |t.Containers()| && t.Containers()[l] == d;
  }

  /** The queued containers satisfy what RunContainersQuiet needs. */
  lemma QueueReady(n: Node, t: Table, migrate: bool)
    requires Separated(t) && Unique(n)
    ensures var (revived, cs) := ReviveContainers(n, t.Containers(), migrate);
      var moved := RunMoves(revived, t.Moves(), migrate);
      && Unique(moved)
      && (forall k | 0 <= k < |cs| :: Bare(moved, cs[k].legacy))
      && (forall k | 0 <= k < |cs| :: cs[k].legacy != [] && cs[k].legacy != API_KEYS && !(cs[k].current <= cs[k].legacy))
      && (forall j, k | 0 <= j < |cs| && 0 <= k < |cs| :: !(cs[j].legacy <= cs[k].current))
  {
    var (revived, cs) := ReviveContainers(n, t.Containers(), migrate);
    ReviveQuiet(n, t.Containers(), migrate, []);
    RunMovesUnique(revived, t.Moves(), migrate);
    forall k | 0 <= k < |cs|
      ensures Bare(RunMoves(revived, t.Moves(), migrate), cs[k].legacy)
      ensures cs[k].legacy != [] && cs[k].legacy != API_KEYS && !(cs[k].current <= cs[k].legacy)
    {
      assert cs[k] in cs;
      ContainerFacts(t, cs[k], cs[k]);
      RunLeavesBare(revived, t.Moves(), migrate, cs[k].legacy);
    }
    forall j, k | 0 <= j < |cs| && 0 <= k < |cs| ensures !(cs[j].legacy <= cs[k].current) {
      assert cs[j] in cs && cs[k] in cs;
      ContainerFacts(t, cs[j], cs[k]);
    }
  }

  /** Reviving and moving containers is invisible away from and below them. */
  lemma ContainersInvisible(n: Node, t: Table, migrate: bool, q: Path)
    requires Separated(t) && Unique(n)
    requires forall c | c in t.Containers() :: !(q <= c.legacy) && !(q <= c.current)
    ensures var (revived, queued) := ReviveContainers(n, t.Containers(), migrate);
      && Unique(revived) && Get(revived, q) == Get(n, q)
      && Get(Moved(n, t, migrate), q) == Get(RunMoves(revived, t.Moves(), migrate), q)
      && Unique(Moved(n, t, migrate))
  {
    var (revived, queued) := ReviveContainers(n, t.Containers(), migrate);
    ReviveQuiet(n, t.Containers(), migrate, q);
    QueueReady(n, t, migrate);
    QueuedAway(queued, t.Containers(), q);
    RunContainersQuiet(RunMoves(revived, t.Moves(), migrate), queued, migrate, q);
  }

  lemma LeafAwayFromContainers(t: Table, i: nat)
    requires Separated(t) && i < |t.Moves()|
    ensures forall c | c in t.Containers() :: !(t.Moves()[i].current <= c.legacy) && !(t.Moves()[i].current <= c.current)
    ensures forall c | c in t.Containers() :: !(t.Moves()[i].legacy <= c.legacy) && !(t.Moves()[i].legacy <= c.current)
  {
  }

  /** Two documents that agree on every spelling of every setting. */
  ghost predicate SameSpellings(n: Node, r: Node, ms: seq<Move>) {
    forall i | 0 <= i < |ms| :: Get(r, ms[i].current) == Get(n, ms[i].current) && Get(r, ms[i].legacy) == Get(n, ms[i].legacy)
  }

  lemma SameSpellingsSameSettings(n: Node, r: Node, ms: seq<Move>)
    requires SameSpellings(n, r, ms)
    ensures forall i | 0 <= i < |ms| :: Effective(r, ms, ms[i].current) == Effective(n, ms, ms[i].current)
    ensures AbsentBefore(n, ms, |ms|) ==> AbsentBefore(r, ms, |ms|)
  {
    forall i | 0 <= i < |ms| ensures Effective(r, ms, ms[i].current) == Effective(n, ms, ms[i].current) {
      FirstLegacySame(n, r, ms, ms[i].current);
    }
  }

  lemma ContainersKeepSpellings(n: Node, t: Table, migrate: bool)
    requires Separated(t) && Unique(n)
    ensures var revived := ReviveContainers(n, t.Containers(), migrate).0;
      && Unique(revived) && SameSpellings(n, revived, t.Moves())
      && SameSpellings(RunMoves(revived, t.Moves(), migrate), Moved(n, t, migrate), t.Moves())
      && Unique(Moved(n, t, migrate))
  {
    ReviveQuiet(n, t.Containers(), migrate, []);
    QueueReady(n, t, migrate);
    var (revived, queued) := ReviveContainers(n, t.Containers(), migrate);
    RunMovesUnique(RunMoves(revived, t.Moves(), migrate), queued, migrate);
    forall i | 0 <= i < |t.Moves()|
      ensures Get(revived, t.Moves()[i].current) == Get(n, t.Moves()[i].current)
      ensures Get(revived, t.Moves()[i].legacy) == Get(n, t.Moves()[i].legacy)
      ensures Get(Moved(n, t, migrate), t.Moves()[i].current) == Get(RunMoves(revived, t.Moves(), migrate), t.Moves()[i].current)
      ensures Get(Moved(n, t, migrate), t.Moves()[i].legacy) == Get(RunMoves(revived, t.Moves(), migrate), t.Moves()[i].legacy)
    {
      LeafAwayFromContainers(t, i);
      ContainersInvisible(n, t, migrate, t.Moves()[i].current);
      ContainersInvisible(n, t, migrate, t.Moves()[i].legacy);
    }
  }

  lemma MovedKeepsSettings(n: Node, t: Table, migrate: bool)
    requires Separated(t) && Unique(n)
    ensures var r := Moved(n, t, migrate);
      && Unique(r)
      && (migrate ==> AbsentBefore(r, t.Moves(), |t.Moves()|))
      && (forall i | 0 <= i < |t.Moves()| ::
            Effective(r, t.Moves(), t.Moves()[i].current) == Effective(n, t.Moves(), t.Moves()[i].current))
  {
    var ms := t.Moves();
    ContainersKeepSpellings(n, t, migrate);
    var revived := ReviveContainers(n, t.Containers(), migrate).0;
    SameSpellingsSameSettings(n, revived, ms);
    assert ms[0..] == ms;
    RunEffective(revived, ms, 0, migrate);
    SameSpellingsSameSettings(RunMoves(revived, ms, migrate), Moved(n, t, migrate), ms);
  }

  lemma QueuedAway(queued: seq<Move>, cs: seq<Move>, q: Path)
    requires (forall c | c in queued :: c in cs) && forall c | c in cs :: !(q <= c.legacy) && !(q <= c.current)
    ensures forall k | 0 <= k < |queued| :: !(q <= queued[k].legacy) && !(q <= queued[k].current)
  {
    forall k | 0 <= k < |queued| ensures !(q <= queued[k].legacy) && !(q <= queued[k].current) {
      assert queued[k] in queued;
    }
  }

  /** What the moves do not touch. */
  lemma MovedAside(n: Node, t: Table, migrate: bool, q: Path)
    requires Separated(t) && Unique(n)
    requires forall c | c in t.Containers() :: !Comparable(c.legacy, q) && !Comparable(c.current, q)
    requires forall i | 0 <= i < |t.Moves()| :: !Comparable(t.Moves()[i].current, q)
    requires forall i | 0 <= i < |t.Moves()| ::
      !Comparable(t.Moves()[i].legacy, q) || (t.Moves()[i].legacy == API_KEYS && API_KEYS <= q && q != API_KEYS)
    ensures Get(Moved(n, t, migrate), q) == Get(n, q)
  {
    ContainersInvisible(n, t, migrate, q);
    RunMovesAside(ReviveContainers(n, t.Containers(), migrate).0, t.Moves(), migrate, q);
  }

  lemma MovedKeepsFamily(n: Node, t: Table, migrate: bool, k: nat)
    requires Separated(t) && Unique(n) && k < |t.families|
    ensures Get(Moved(n, t, migrate), t.families[k].move.legacy) == Get(n, t.families[k].move.legacy)
    ensures Get(Moved(n, t, migrate), t.families[k].move.current) == Get(n, t.families[k].move.current)
  {
    assert t.families[k] in t.families;
    MovedAside(n, t, migrate, t.families[k].move.legacy);
    MovedAside(n, t, migrate, t.families[k].move.current);
  }

  lemma MovedKeepsGroups(n: Node, t: Table, migrate: bool)
    requires Separated(t) && Unique(n)
    ensures forall f | f in t.families :: FamilyGroups(Moved(n, t, migrate), t, f) == FamilyGroups(n, t, f)
  {
    forall f | f in t.families ensures FamilyGroups(Moved(n, t, migrate), t, f) == FamilyGroups(n, t, f) {
      var k :| 0 <= k < |t.families| && t.families[k] == f;
      MovedKeepsFamily(n, t, migrate, k);
    }
  }

  // ---- the whole rewrite ---------------------------------------------------

  lemma GroupedKeepsSettings(n: Node, t: Table, migrate: bool)
    requires Separated(t) && Unique(n)
    ensures var ms := t.Moves();
      var r := RunFamilies(Moved(n, t, migrate), t, t.families, migrate);
      && Unique(r)
      && (migrate ==> AbsentBefore(r, ms, |ms|))
      && (forall i | 0 <= i < |ms| :: Effective(r, ms, ms[i].current) == Effective(n, ms, ms[i].current))
      && (migrate ==> forall f | f in t.families :: Get(r, f.move.legacy).None?)
      && (migrate ==> forall f | f in t.families :: Get(r, f.move.current) == FamilyGroups(n, t, f))
  {
    var ms := t.Moves();
    var moved := Moved(n, t, migrate);
    MovedKeepsSettings(n, t, migrate);
    RunFamiliesEffective(moved, t, ms, 0, migrate);
    assert t.families[0..] == t.families;
    MovedKeepsGroups(n, t, migrate);
  }

  /** Dropping unknown keys and stamping the version, at one path. */
  lemma FinishKeeps(n: Node, t: Table, q: Path)
    requires Permitted([], q, t.known) && !Comparable(q, VERSION)
    ensures Get(Set(DropUnknown(n, [], t.known), VERSION, VERSION_8), q) == Get(n, q)
  {
    DropPermitted(n, [], q, t.known);
    GetSetOther(DropUnknown(n, [], t.known), VERSION, VERSION_8, q);
  }

  lemma FinishKeepsAbsent(n: Node, t: Table, q: Path)
    requires LegacyGet(n, q).None? && !Comparable(q, VERSION)
    ensures LegacyGet(Set(DropUnknown(n, [], t.known), VERSION, VERSION_8), q).None?
  {
    DropKeepsKind(n, [], q, t.known);
    GetSetOther(DropUnknown(n, [], t.known), VERSION, VERSION_8, q);
  }

  /** Main result: every mapped setting keeps its effective value, whether or not the file is migrated. */
  lemma NormalizeKeepsSettings(n: Node, t: Table, migrate: bool)
    requires Separated(t) && Unique(n)
    ensures forall i | 0 <= i < |t.Moves()| ::
      Effective(Normalize(n, t, migrate), t.Moves(), t.Moves()[i].current) == Effective(n, t.Moves(), t.Moves()[i].current)
  {
    GroupedKeepsSettings(n, t, migrate);
    if migrate { FinishKeepsSettings(RunFamilies(Moved(n, t, true), t, t.families, true), t); }
  }

  /** Once no legacy spelling is left, finishing the migration keeps every setting. */
  lemma FinishKeepsSettings(grouped: Node, t: Table)
    requires Separated(t) && AbsentBefore(grouped, t.Moves(), |t.Moves()|)
    requires forall f | f in t.families :: Get(grouped, f.move.legacy).None?
    ensures var r := Set(DropUnknown(grouped, [], t.known), VERSION, VERSION_8);
      forall i | 0 <= i < |t.Moves()| ::
        Effective(r, t.Moves(), t.Moves()[i].current) == Effective(grouped, t.Moves(), t.Moves()[i].current)
  {
    var ms, r := t.Moves(), Set(DropUnknown(grouped, [], t.known), VERSION, VERSION_8);
    FinishRemoves(grouped, t);
    forall i | 0 <= i < |ms| ensures Effective(r, ms, ms[i].current) == Effective(grouped, ms, ms[i].current) {
      FinishKeeps(grouped, t, ms[i].current);
      FirstLegacyNone(grouped, ms, ms[i].current);
      FirstLegacyNone(r, ms, ms[i].current);
    }
  }

  /** Finishing a migration leaves no legacy spelling behind. */
  lemma FinishRemoves(grouped: Node, t: Table)
    requires Separated(t) && AbsentBefore(grouped, t.Moves(), |t.Moves()|)
    requires forall f | f in t.families :: Get(grouped, f.move.legacy).None?
    ensures var r := Set(DropUnknown(grouped, [], t.known), VERSION, VERSION_8);
      && AbsentBefore(r, t.Moves(), |t.Moves()|)
      && (forall c | c in t.Containers() :: Get(r, c.legacy).None?)
      && (forall f | f in t.families :: Get(r, f.move.legacy).None?)
      && Get(r, VERSION) == Some(VERSION_8)
  {
    var ms := t.Moves();
    var dropped := DropUnknown(grouped, [], t.known);
    var r := Set(dropped, VERSION, VERSION_8);
    GetSetSame(dropped, VERSION, VERSION_8);
    forall j | 0 <= j < |ms| ensures LegacyGet(r, ms[j].legacy).None? {
      FinishKeepsAbsent(grouped, t, ms[j].legacy);
    }
    forall f | f in t.families ensures Get(r, f.move.legacy).None? {
      DropKeepsKind(grouped, [], f.move.legacy, t.known);
      GetSetOther(dropped, VERSION, VERSION_8, f.move.legacy);
    }
    forall c | c in t.Containers() ensures Get(r, c.legacy).None? {
      DropForbidden(grouped, [], c.legacy, t.known);
      GetSetOther(dropped, VERSION, VERSION_8, c.legacy);
    }
  }

  /** A migrated file holds no legacy spelling of a setting, container or credential list. */
  lemma NormalizeRemovesLegacy(n: Node, t: Table)
    requires Separated(t) && Unique(n)
    ensures var r := Normalize(n, t, true);
      && AbsentBefore(r, t.Moves(), |t.Moves()|)
      && (forall c | c in t.Containers() :: Get(r, c.legacy).None?)
      && (forall f | f in t.families :: Get(r, f.move.legacy).None?)
      && Get(r, VERSION) == Some(VERSION_8)
  {
    GroupedKeepsSettings(n, t, true);
    FinishRemoves(RunFamilies(Moved(n, t, true), t, t.families, true), t);
  }

  /** Credentials: the v8 groups win by presence, else they are the grouped legacy list. */
  lemma NormalizeMovesFamilies(n: Node, t: Table)
    requires Separated(t) && Unique(n)
    ensures forall f | f in t.families :: Get(Normalize(n, t, true), f.move.current) == FamilyGroups(n, t, f)
  {
    GroupedKeepsSettings(n, t, true);
    forall f | f in t.families ensures Get(Normalize(n, t, true), f.move.current) == FamilyGroups(n, t, f) {
      FinishKeeps(RunFamilies(Moved(n, t, true), t, t.families, true), t, f.move.current);
    }
  }

  // ---- a second pass -------------------------------------------------------

  lemma ReviveNothing(n: Node, cs: seq<Move>, migrate: bool)
    requires forall k | 0 <= k < |cs| :: Get(n, cs[k].legacy).None?
    ensures ReviveContainers(n, cs, migrate) == (n, [])
  {
  }

  lemma MoveNothing(n: Node, ms: seq<Move>, migrate: bool)
    requires forall i | 0 <= i < |ms| :: ms[i].legacy != [] && LegacyGet(n, ms[i].legacy).None?
    ensures forall m | m in ms :: m.legacy != []
    ensures RunMoves(n, ms, migrate) == n
  {
  }

  lemma GroupNothing(n: Node, t: Table, fs: seq<Family>, migrate: bool)
    requires forall k | 0 <= k < |fs| :: fs[k].move.legacy != [] && Get(n, fs[k].move.legacy).None?
    ensures forall f | f in fs :: f.move.legacy != []
    ensures RunFamilies(n, t, fs, migrate) == n
  {
  }

  lemma FinishTwice(n: Node, t: Table)
    requires Permitted([], VERSION, t.known) && [] in t.known
    ensures var r := Set(DropUnknown(n, [], t.known), VERSION, VERSION_8);
      Set(DropUnknown(r, [], t.known), VERSION, VERSION_8) == r
  {
    var d := DropUnknown(n, [], t.known);
    var r := Set(d, VERSION, VERSION_8);
    DropTwice(n, [], t.known);
    GetSetSame(d, VERSION, VERSION_8);
    SetPresent(r, VERSION, VERSION_8);
    assert r == Mapping(Put(EntriesOf(d), VERSION[0], VERSION_8)) by {
      assert Set(ChildOrNew(d, VERSION[0]), VERSION[1..], VERSION_8) == VERSION_8;
    }
    assert VERSION[0] in t.known[[]];
    assert DropUnknown(VERSION_8, [] + [VERSION[0]], t.known) == VERSION_8;
    DropPut(EntriesOf(d), [], t.known, VERSION[0], VERSION_8);
  }

  /** Migrating a migrated file changes nothing, not even the order of entries. */
  lemma NormalizeTwice(n: Node, t: Table)
    requires Separated(t) && Unique(n)
    ensures Normalize(Normalize(n, t, true), t, true) == Normalize(n, t, true)
  {
    var r := Normalize(n, t, true);
    NormalizeRemovesLegacy(n, t);
    forall k | 0 <= k < |t.Containers()| ensures Get(r, t.Containers()[k].legacy).None? {
      assert t.Containers()[k] in t.Containers();
    }
    ReviveNothing(r, t.Containers(), true);
    MoveNothing(r, t.Moves(), true);
    GroupNothing(r, t, t.families, true);
    FinishTwice(RunFamilies(Moved(n, t, true), t, t.families, true), t);
  }
}
