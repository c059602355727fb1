/**
 When a document is rewritten at all: the flag that NormalizeConfigLayout returns, and the proof
 that it says exactly whether the document it would write differs from the one it read.

 Models the changed variable of CLIProxyAPI/internal/config/config_v8.go, NormalizeConfigLayout
 and normalizeV8PrivateIPAlias.
 */
module LayoutChanges {
  import opened YamlTree
  import opened LayoutMigration
  import opened MigrationTheorems
  import opened PrivateIps

  predicate StepChanges(n: Node, m: Move, migrate: bool) {
    LegacyGet(n, m.legacy).Some? && (Get(n, m.current).Some? || migrate)
  }

  predicate MovesChange(n: Node, ms: seq<Move>, migrate: bool)
    requires forall m | m in ms :: m.legacy != []
    decreases |ms|
  {
    ms != [] && (StepChanges(n, ms[0], migrate) || MovesChange(StepMove(n, ms[0], migrate), ms[1..], migrate))
  }

  predicate FamilyChanges(n: Node, f: Family, migrate: bool) {
    Get(n, f.move.legacy).Some? && (Get(n, f.move.current).Some? || migrate)
  }

  predicate FamiliesChange(n: Node, t: Table, fs: seq<Family>, migrate: bool)
    requires forall f | f in fs :: f.move.legacy != []
    decreases |fs|
  {
    fs != [] && (FamilyChanges(n, fs[0], migrate) || FamiliesChange(StepFamily(n, t, fs[0], migrate), t, fs[1..], migrate))
  }

  /** Emptying a null container for a move does not count by itself. */
  predicate SettingsChange(n: Node, t: Table, migrate: bool)
    requires t.Paths()
  {
    var (revived, queued) := ReviveContainers(n, t.Containers(), migrate);
    MovesChange(revived, t.Moves(), migrate) || MovesChange(RunMoves(revived, t.Moves(), migrate), queued, migrate)
  }

  predicate Changes(n: Node, t: Table, migrate: bool)
    requires t.Paths()
  {
    SettingsChange(n, t, migrate) || FamiliesChange(Moved(n, t, migrate), t, t.families, migrate) || migrate
  }

  predicate ResolveChanges(n: Node, migrate: bool) {
    Get(n, ALLOW).Some? && (Get(n, V8_DISABLE).Some? || (migrate && Get(n, DISABLE).None?))
  }

  /** The flag for the whole call. */
  predicate DocumentChanges(n: Node, t: Table, migrate: bool, decode: Decoder)
    requires t.Paths() && ResolveAllow(n, migrate, decode).Ok?
  {
    ResolveChanges(n, migrate) || Changes(ResolveAllow(n, migrate, decode).value, t, migrate)
  }

  // ---- no flag, no change ----------------------------------------------------------------

  lemma {:induction false} MovesQuiet(n: Node, ms: seq<Move>, migrate: bool)
    requires forall m | m in ms :: m.legacy != []
    requires !MovesChange(n, ms, migrate)
    ensures RunMoves(n, ms, migrate) == n
    decreases |ms|
  {
    if ms != [] { MovesQuiet(n, ms[1..], migrate); }
  }

  lemma {:induction false} FamiliesQuiet(n: Node, t: Table, fs: seq<Family>, migrate: bool)
    requires forall f | f in fs :: f.move.legacy != []
    requires !FamiliesChange(n, t, fs, migrate)
    ensures RunFamilies(n, t, fs, migrate) == n
    decreases |fs|
  {
    if fs != [] { FamiliesQuiet(n, t, fs[1..], migrate); }
  }

  /** Emptying a hollow container takes nothing away that is present. */
  lemma PresenceKept(n: Node, p: Path, q: Path)
    requires Hollow(Get(n, p)) && Get(n, q).Some?
    ensures Get(Set(n, p, EMPTY_MAP), q).Some?
  {
    if p <= q {
      if p == q { GetSetSame(n, p, EMPTY_MAP); } else { GetBelow(n, p, q); }
    } else if q <= p {
      GetSetAncestor(n, p, EMPTY_MAP, q);
    } else {
      GetSetOther(n, p, EMPTY_MAP, q);
    }
  }

  lemma GetBelow(n: Node, p: Path, q: Path)
    requires p < q && Hollow(Get(n, p))
    ensures Get(n, q).None?
  {
    GetThrough(n, p, q);
    assert Child(Get(n, p).value, q[|p|..][0]).None?;
  }

  lemma {:induction false} GetThrough(n: Node, p: Path, q: Path)
    requires p <= q && Get(n, p).Some?
    ensures Get(n, q) == Get(Get(n, p).value, q[|p|..])
    decreases |p|
  {
    if p == [] {
      assert q[0..] == q;
    } else {
      assert q[1..][|p[1..]|..] == q[|p|..];
      GetThrough(Child(n, p[0]).value, p[1..], q[1..]);
    }
  }

  lemma {:induction false} RevivalKeeps(n: Node, cs: seq<Move>, q: Path)
    requires Get(n, q).Some?
    ensures Get(ReviveContainers(n, cs, false).0, q).Some?
    decreases |cs|
  {
    if cs != [] {
      if Hollow(Get(n, cs[0].legacy)) && Get(n, cs[0].current).Some? {
        PresenceKept(n, cs[0].legacy, q);
        RevivalKeeps(Set(n, cs[0].legacy, EMPTY_MAP), cs[1..], q);
      } else {
        RevivalKeeps(n, cs[1..], q);
      }
    }
  }

  /** If a container is queued, both of its spellings are present; if none is, nothing was emptied. */
  lemma {:induction false} FirstQueued(n: Node, cs: seq<Move>)
    ensures var (r, queued) := ReviveContainers(n, cs, false);
      if queued == [] then r == n else Get(r, queued[0].legacy).Some? && Get(r, queued[0].current).Some?
    decreases |cs|
  {
    if cs != [] {
      if Hollow(Get(n, cs[0].legacy)) && Get(n, cs[0].current).Some? {
        RevivalKeeps(n, cs, cs[0].legacy);
        RevivalKeeps(n, cs, cs[0].current);
      } else {
        FirstQueued(n, cs[1..]);
      }
    }
  }

  lemma SettingsQuiet(n: Node, t: Table)
    requires Separated(t) && !SettingsChange(n, t, false)
    ensures Moved(n, t, false) == n
  {
    var (r, queued) := ReviveContainers(n, t.Containers(), false);
    FirstQueued(n, t.Containers());
    MovesQuiet(r, t.Moves(), false);
    if queued != [] {
      assert queued[0] in t.Containers();
      ContainerFacts(t, queued[0], queued[0]);
      assert StepChanges(r, queued[0], false);
    }
  }

  lemma UnchangedSame(n: Node, t: Table)
    requires Separated(t) && !Changes(n, t, false)
    ensures Normalize(n, t, false) == n
  {
    SettingsQuiet(n, t);
    FamiliesQuiet(n, t, t.families, false);
  }

  // ---- a flag, and the document is smaller -------------------------------------------------

  /** The number of entries a path can lead to. */
  function Size(n: Node): nat {
    if n.Mapping? then Weight(n.entries) else 0
  }

  function Weight(es: seq<Entry>): nat {
    if es == [] then 0 else 1 + Size(es[0].value) + Weight(es[1..])
  }

  lemma {:induction false} PutWeight(es: seq<Entry>, key: string, v: Node)
    requires Lookup(es, key).Some?
    ensures Weight(Put(es, key, v)) == Weight(es) - Size(Lookup(es, key).value) + Size(v)
  {
    if es[0].key == key {
      assert ([Entry(key, v)] + es[1..])[1..] == es[1..];
    } else {
      PutWeight(es[1..], key, v);
      assert ([es[0]] + Put(es[1..], key, v))[1..] == Put(es[1..], key, v);
    }
  }

  lemma {:induction false} RemoveWeight(es: seq<Entry>, key: string)
    requires Lookup(es, key).Some?
    ensures Weight(Remove(es, key)) < Weight(es)
  {
    if es[0].key != key {
      RemoveWeight(es[1..], key);
      assert ([es[0]] + Remove(es[1..], key))[1..] == Remove(es[1..], key);
    }
  }

  lemma {:induction false} DeleteShrinks(n: Node, p: Path)
    requires p != [] && Get(n, p).Some?
    ensures Size(Delete(n, p)) < Size(n)
    decreases |p|
  {
    RemoveWeight(n.entries, p[0]);
    if |p| > 1 {
      var c := Child(n, p[0]).value;
      DeleteShrinks(c, p[1..]);
      PutWeight(n.entries, p[0], Delete(c, p[1..]));
    }
  }

  lemma {:induction false} EmptyingKeepsSize(n: Node, p: Path)
    requires Hollow(Get(n, p))
    ensures Size(Set(n, p, EMPTY_MAP)) == Size(n)
    decreases |p|
  {
    if p != [] {
      var c := Child(n, p[0]).value;
      EmptyingKeepsSize(c, p[1..]);
      PutWeight(n.entries, p[0], Set(c, p[1..], EMPTY_MAP));
    }
  }

  lemma {:induction false} RevivalKeepsSize(n: Node, cs: seq<Move>)
    ensures Size(ReviveContainers(n, cs, false).0) == Size(n)
    decreases |cs|
  {
    if cs != [] {
      if Hollow(Get(n, cs[0].legacy)) && Get(n, cs[0].current).Some? {
        EmptyingKeepsSize(n, cs[0].legacy);
        RevivalKeepsSize(Set(n, cs[0].legacy, EMPTY_MAP), cs[1..]);
      } else {
        RevivalKeepsSize(n, cs[1..]);
      }
    }
  }

  lemma {:induction false} MovesShrink(n: Node, ms: seq<Move>)
    requires forall m | m in ms :: m.legacy != []
    ensures Size(RunMoves(n, ms, false)) <= Size(n)
    ensures MovesChange(n, ms, false) ==> Size(RunMoves(n, ms, false)) < Size(n)
    decreases |ms|
  {
    if ms != [] {
      if StepChanges(n, ms[0], false) { DeleteShrinks(n, ms[0].legacy); }
      MovesShrink(StepMove(n, ms[0], false), ms[1..]);
    }
  }

  lemma {:induction false} FamiliesShrink(n: Node, t: Table, fs: seq<Family>)
    requires forall f | f in fs :: f.move.legacy != []
    ensures Size(RunFamilies(n, t, fs, false)) <= Size(n)
    ensures FamiliesChange(n, t, fs, false) ==> Size(RunFamilies(n, t, fs, false)) < Size(n)
    decreases |fs|
  {
    if fs != [] {
      if FamilyChanges(n, fs[0], false) { DeleteShrinks(n, fs[0].move.legacy); }
      FamiliesShrink(StepFamily(n, t, fs[0], false), t, fs[1..]);
    }
  }

  lemma NormalizeShrinks(n: Node, t: Table)
    requires t.Paths()
    ensures Size(Normalize(n, t, false)) <= Size(n)
    ensures Changes(n, t, false) ==> Size(Normalize(n, t, false)) < Size(n)
  {
    var (r, queued) := ReviveContainers(n, t.Containers(), false);
    RevivalKeepsSize(n, t.Containers());
    MovesShrink(r, t.Moves());
    MovesShrink(RunMoves(r, t.Moves(), false), queued);
    FamiliesShrink(Moved(n, t, false), t, t.families);
  }

  /** Main result: on load the flag is set exactly if the document changes. */
  lemma ChangedExactly(n: Node, t: Table, decode: Decoder)
    requires Separated(t) && NormalizeDocument(n, t, false, decode).Ok?
    ensures DocumentChanges(n, t, false, decode) <==> NormalizeDocument(n, t, false, decode).value != n
  {
    var m := ResolveAllow(n, false, decode).value;
    if ResolveChanges(n, false) { DeleteShrinks(n, ALLOW); }
    NormalizeShrinks(m, t);
    if !Changes(m, t, false) { UnchangedSame(m, t); }
  }
}
