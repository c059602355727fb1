/**
 Settings the path tables say nothing about: what v8 permits besides the moved settings keeps its
 value through the rewrite, and the decoder reads it where it stands.
 */
module UnmappedSettings {
  import opened YamlTree
  import opened LayoutMigration
  import opened MigrationTheorems
  import opened FlattenTheorems
  import opened TidyTheorems

  /** No row of the tables spells the path, a part of it or something below it. */
  ghost predicate Unmapped(t: Table, q: Path) {
    && (forall i | 0 <= i < |t.Moves()| :: !Comparable(t.Moves()[i].legacy, q) && !Comparable(t.Moves()[i].current, q))
    && (forall k | 0 <= k < |t.families| ::
          !Comparable(t.families[k].move.legacy, q) && !Comparable(t.families[k].move.current, q))
    && (forall c | c in t.Containers() :: !(q <= c.legacy) && !(q <= c.current))
    && !Comparable(VERSION, q) && !Comparable(API_KEYS, q)
  }

  ghost predicate BesideShared(t: Table, q: Path) {
    forall i | 0 <= i < |t.sharedStructs| ::
      !Comparable(t.sharedStructs[i].legacy, q) && !Comparable(t.sharedStructs[i].current, q)
  }

  lemma MovedKeepsUnmapped(n: Node, t: Table, migrate: bool, q: Path)
    requires Separated(t) && Unique(n) && Unmapped(t, q)
    ensures Unique(Moved(n, t, migrate)) && Get(Moved(n, t, migrate), q) == Get(n, q)
  {
    ContainersInvisible(n, t, migrate, q);
    RunMovesAside(ReviveContainers(n, t.Containers(), migrate).0, t.Moves(), migrate, q);
  }

  lemma {:induction false} FamiliesKeepUnmapped(n: Node, t: Table, fs: seq<Family>, migrate: bool, q: Path)
    requires Unique(n)
    requires forall k | 0 <= k < |fs| ::
      fs[k].move.legacy != [] && !Comparable(fs[k].move.legacy, q) && !Comparable(fs[k].move.current, q)
    ensures forall f | f in fs :: f.move.legacy != []
    ensures Get(RunFamilies(n, t, fs, migrate), q) == Get(n, q)
    decreases |fs|
  {
    if fs != [] {
      FamilyUnique(n, t, fs[0], migrate);
      FamilyFrame(n, t, fs[0], migrate, q);
      FamiliesKeepUnmapped(StepFamily(n, t, fs[0], migrate), t, fs[1..], migrate, q);
    }
  }

  lemma ListsHavePaths(t: Table, k: nat)
    requires t.Paths() && k < |t.families|
    ensures t.families[k].move.legacy != []
  {
    assert t.families[k] in t.families;
  }

  lemma GroupedKeepsUnmapped(n: Node, t: Table, migrate: bool, q: Path)
    requires Separated(t) && Unique(n) && Unmapped(t, q)
    ensures Get(RunFamilies(Moved(n, t, migrate), t, t.families, migrate), q) == Get(n, q)
  {
    MovedKeepsUnmapped(n, t, migrate, q);
    forall k | 0 <= k < |t.families| ensures t.families[k].move.legacy != [] { ListsHavePaths(t, k); }
    FamiliesKeepUnmapped(Moved(n, t, migrate), t, t.families, migrate, q);
  }

  lemma LastStepKeeps(n: Node, t: Table, migrate: bool, q: Path)
    requires t.Paths() && !Comparable(VERSION, q) && (migrate ==> Permitted([], q, t.known))
    ensures Get(Normalize(n, t, migrate), q) == Get(RunFamilies(Moved(n, t, migrate), t, t.families, migrate), q)
  {
    if migrate { FinishKeeps(RunFamilies(Moved(n, t, true), t, t.families, true), t, q); }
  }

  /** Main result: the rewrite leaves such a setting as it is, provided v8 permits it where the rest is dropped. */
  lemma UnmappedKept(n: Node, t: Table, migrate: bool, q: Path)
    requires Separated(t) && Unique(n) && Unmapped(t, q) && (migrate ==> Permitted([], q, t.known))
    ensures Get(Normalize(n, t, migrate), q) == Get(n, q)
  {
    GroupedKeepsUnmapped(n, t, migrate, q);
    LastStepKeeps(n, t, migrate, q);
  }

  lemma UnmappedBeside(t: Table, q: Path)
    requires Unmapped(t, q)
    requires BesideShared(t, q)
    ensures BesideTables(t, q)
  {
    forall i | 0 <= i < |t.aliases| ensures !Comparable(t.aliases[i].legacy, q) && !Comparable(t.aliases[i].current, q) {
      AliasAt(t, i);
    }
    forall i | 0 <= i < |t.fields| ensures !Comparable(t.fields[i].legacy, q) && !Comparable(t.fields[i].current, q) {
      FieldAt(t, i);
    }
  }

  /** And the decoder reads it where it stands. */
  lemma UnmappedRead(n: Node, t: Table, q: Path)
    requires Separated(t) && Unmapped(t, q) && Flatten(n, t).Ok?
    requires BesideShared(t, q)
    ensures Get(Flatten(n, t).value, q) == Get(n, q)
  {
    UnmappedBeside(t, q);
    PreparedKeeps(n, t, q);
    ExpandFrame(RunBack(Prepared(n, t), t.fields), n, t, t.families, q);
  }

  /** Main result: the runtime reads the same before and after the file was rewritten. */
  lemma UnmappedUnchanged(n: Node, t: Table, migrate: bool, q: Path)
    requires Separated(t) && Unmapped(t, q) && (migrate ==> Permitted([], q, t.known))
    requires Flatten(n, t).Ok? && ListsReadBack(n, t, migrate)
    requires BesideShared(t, q)
    ensures var r := Normalize(n, t, migrate); Flatten(r, t).Ok? && Get(Flatten(r, t).value, q) == Get(Flatten(n, t).value, q)
  {
    RewrittenAccepted(n, t, migrate);
    UnmappedRead(n, t, q);
    UnmappedRead(Normalize(n, t, migrate), t, q);
    UnmappedKept(n, t, migrate, q);
  }
}
