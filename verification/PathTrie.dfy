/**
 Path tables checked one row at a time: a trie holds all spellings at once, and what the layout
 rewrite asks of a table follows from one lookup per spelling.  A spelling is a leaf of the trie,
 so none leads through another; a container is a branch.  Keys are looked up by a number that is
 computed from them; equal keys have equal numbers, and nothing else is needed of it.
 */
module PathTrie {
  import opened Wrappers
  import opened YamlTree
  import opened LayoutMigration
  import opened MigrationTheorems
  import UnmappedSettings

  /** What a leaf is: the old spelling of one setting, or the v8 spelling of one. */
  datatype Mark = Old(move: nat) | New(setting: nat)

  /** A branch of the legacy layout, or of v8, with its children in a search tree. */
  datatype Trie = Leaf(mark: Mark) | Branch(current: bool, kids: Kids)

  datatype Kids = End | Kid(left: Kids, key: int, sub: Trie, right: Kids)

  /** A path as the numbers of its keys. */
  datatype Code = Stop | Go(key: int, rest: Code)

  /** Length, first and last two letters. */
  function Weigh(s: string): int {
    if |s| < 2 then 0
    else ((|s| * 128 + s[0] as int) * 128 + s[|s| - 1] as int) * 128 + s[|s| - 2] as int
  }

  function Find(kids: Kids, key: int): Option<Trie> {
    if kids.End? then None
    else if key < kids.key then Find(kids.left, key)
    else if key == kids.key then Some(kids.sub)
    else Find(kids.right, key)
  }

  function AtCode(t: Trie, c: Code): Option<Trie>
    decreases c
  {
    if c.Stop? then Some(t)
    else if t.Leaf? || Find(t.kids, c.key).None? then None
    else AtCode(Find(t.kids, c.key).value, c.rest)
  }

  predicate Weighs(p: Path, c: Code)
    decreases c
  {
    if c.Stop? then p == [] else p != [] && Weigh(p[0]) == c.key && Weighs(p[1..], c.rest)
  }

  /** What stands at a path. */
  function At(t: Trie, p: Path): Option<Trie>
    decreases |p|
  {
    if p == [] then Some(t)
    else if t.Leaf? || Find(t.kids, Weigh(p[0])).None? then None
    else At(Find(t.kids, Weigh(p[0])).value, p[1..])
  }

  lemma {:induction false} AtWeighed(t: Trie, p: Path, c: Code)
    requires Weighs(p, c)
    ensures At(t, p) == AtCode(t, c)
    decreases c
  {
    if c.Go? && t.Branch? && Find(t.kids, c.key).Some? { AtWeighed(Find(t.kids, c.key).value, p[1..], c.rest); }
  }

  lemma {:induction false} AtConcat(t: Trie, p: Path, q: Path)
    ensures At(t, p + q) == match At(t, p) case None => None case Some(sub) => At(sub, q)
    decreases |p|
  {
    if p == [] {
      assert p + q == q;
    } else {
      assert (p + q)[0] == p[0] && (p + q)[1..] == p[1..] + q;
      if t.Branch? && Find(t.kids, Weigh(p[0])).Some? { AtConcat(Find(t.kids, Weigh(p[0])).value, p[1..], q); }
    }
  }

  predicate IsLeaf(t: Trie, p: Path, m: Mark) {
    At(t, p) == Some(Leaf(m))
  }

  predicate IsBranch(t: Trie, p: Path, current: bool) {
    var sub := At(t, p);
    sub.Some? && sub.value.Branch? && sub.value.current == current
  }

  lemma LeafLeadsNowhere(m: Mark, p: Path)
    ensures At(Leaf(m), p).Some? ==> p == []
  {
  }

  /** A leaf leads nowhere. */
  lemma LeafEnds(t: Trie, p: Path, m: Mark, q: Path)
    requires IsLeaf(t, p, m) && p <= q && At(t, q).Some?
    ensures p == q
  {
    AtConcat(t, p, q[|p|..]);
    assert p + q[|p|..] == q;
    LeafLeadsNowhere(m, q[|p|..]);
  }

  /** Two spellings of one table compare only if they are the same one. */
  lemma SpellingsDiffer(t: Trie, p: Path, m: Mark, q: Path, n: Mark)
    requires IsLeaf(t, p, m) && IsLeaf(t, q, n)
    ensures Comparable(p, q) ==> p == q && m == n
  {
    if p <= q { LeafEnds(t, p, m, q); } else if q <= p { LeafEnds(t, q, n, p); }
  }

  /** Everything below belongs to the legacy layout. */
  predicate OldOnly(t: Trie)
    decreases t
  {
    if t.Leaf? then t.mark.Old? else !t.current && AllOld(t.kids)
  }

  predicate AllOld(kids: Kids)
    decreases kids
  {
    kids.End? || (OldOnly(kids.sub) && AllOld(kids.left) && AllOld(kids.right))
  }

  lemma {:induction false} FindOld(kids: Kids, key: int)
    requires AllOld(kids) && Find(kids, key).Some?
    ensures OldOnly(Find(kids, key).value)
    decreases kids
  {
    if key < kids.key { FindOld(kids.left, key); } else if key > kids.key { FindOld(kids.right, key); }
  }

  lemma {:induction false} OldBelow(t: Trie, p: Path)
    requires OldOnly(t) && At(t, p).Some?
    ensures OldOnly(At(t, p).value)
    decreases |p|
  {
    if p != [] {
      FindOld(t.kids, Weigh(p[0]));
      OldBelow(Find(t.kids, Weigh(p[0])).value, p[1..]);
    }
  }

  /** A container of the legacy layout leads to nothing of v8. */
  lemma OldLeadsNowhereNew(t: Trie, p: Path, q: Path)
    requires At(t, p).Some? && OldOnly(At(t, p).value) && p <= q && At(t, q).Some?
    ensures OldOnly(At(t, q).value)
  {
    AtConcat(t, p, q[|p|..]);
    assert p + q[|p|..] == q;
    OldBelow(At(t, p).value, q[|p|..]);
  }

  // ---- paths that are not spelled ------------------------------------------------------

  /** The path leaves the trie at a branch. */
  predicate Outside(t: Trie, p: Path)
    decreases |p|
  {
    t.Branch? && p != [] && match Find(t.kids, Weigh(p[0])) case None => true case Some(sub) => Outside(sub, p[1..])
  }

  predicate OutsideCode(t: Trie, c: Code)
    decreases c
  {
    t.Branch? && c.Go? && match Find(t.kids, c.key) case None => true case Some(sub) => OutsideCode(sub, c.rest)
  }

  lemma {:induction false} OutsideWeighed(t: Trie, p: Path, c: Code)
    requires Weighs(p, c) && OutsideCode(t, c)
    ensures Outside(t, p)
    decreases c
  {
    if Find(t.kids, c.key).Some? { OutsideWeighed(Find(t.kids, c.key).value, p[1..], c.rest); }
  }

  lemma {:induction false} OutsideNowhere(t: Trie, p: Path)
    requires Outside(t, p)
    ensures At(t, p).None?
    decreases |p|
  {
    if Find(t.kids, Weigh(p[0])).Some? { OutsideNowhere(Find(t.kids, Weigh(p[0])).value, p[1..]); }
  }

  lemma {:induction false} OutsideOn(t: Trie, p: Path, q: Path)
    requires Outside(t, p)
    ensures Outside(t, p + q)
    decreases |p|
  {
    assert (p + q)[0] == p[0] && (p + q)[1..] == p[1..] + q;
    if Find(t.kids, Weigh(p[0])).Some? { OutsideOn(Find(t.kids, Weigh(p[0])).value, p[1..], q); }
  }

  lemma OutsideNoPrefix(t: Trie, p: Path, q: Path)
    requires Outside(t, p) && At(t, q).Some?
    ensures !(p <= q)
  {
    if p <= q {
      assert q == p + q[|p|..];
      OutsideOn(t, p, q[|p|..]);
      OutsideNowhere(t, q);
    }
  }

  lemma TailsComparable(p: Path, q: Path)
    requires p != [] && q != []
    ensures Comparable(p, q) ==> Comparable(p[1..], q[1..])
  {
  }

  /** It lies beside every spelling. */
  lemma {:induction false} OutsideBeside(t: Trie, p: Path, q: Path, m: Mark)
    requires Outside(t, p) && IsLeaf(t, q, m)
    ensures !Comparable(p, q)
    decreases |p|
  {
    if q != [] && p[0] == q[0] {
      OutsideBeside(Find(t.kids, Weigh(p[0])).value, p[1..], q[1..], m);
      TailsComparable(p, q);
    }
  }

  // ---- tables -------------------------------------------------------------------------

  /** The place a move leads to is a leaf of v8, below a section. */
  predicate LeadsToV8(t: Trie, m: Move) {
    var sub := At(t, m.current);
    |m.current| > 1 && sub.Some? && sub.value.Leaf? && sub.value.mark.New?
  }

  /** The i-th move: its old spelling is the i-th old leaf. */
  predicate MoveOk(t: Trie, m: Move, i: nat) {
    IsLeaf(t, m.legacy, Old(i)) && LeadsToV8(t, m)
  }

  /** A field has a v8 spelling of its own. */
  predicate FieldOk(t: Trie, m: Move, i: nat) {
    MoveOk(t, m, i) && IsLeaf(t, m.current, New(i))
  }

  /** How a move is checked: by the numbers of its keys. */
  lemma MoveByCode(t: Trie, m: Move, i: nat, legacy: Code, current: Code, setting: nat)
    requires Weighs(m.legacy, legacy) && Weighs(m.current, current) && |m.current| > 1
    requires AtCode(t, legacy) == Some(Leaf(Old(i))) && AtCode(t, current) == Some(Leaf(New(setting)))
    ensures MoveOk(t, m, i) && (setting == i ==> FieldOk(t, m, i))
  {
    AtWeighed(t, m.legacy, legacy);
    AtWeighed(t, m.current, current);
  }

  predicate MovesOk(t: Trie, ms: seq<Move>, i: nat) {
    ms == [] || (MoveOk(t, ms[0], i) && MovesOk(t, ms[1..], i + 1))
  }

  predicate FieldsOk(t: Trie, ms: seq<Move>, i: nat) {
    ms == [] || (FieldOk(t, ms[0], i) && FieldsOk(t, ms[1..], i + 1))
  }

  lemma {:induction false} MovesConcat(t: Trie, a: seq<Move>, b: seq<Move>, i: nat)
    requires MovesOk(t, a, i) && MovesOk(t, b, i + |a|)
    ensures MovesOk(t, a + b, i)
    decreases |a|
  {
    if a == [] {
      assert a + b == b;
    } else {
      MovesConcat(t, a[1..], b, i + 1);
      assert (a + b)[0] == a[0] && (a + b)[1..] == a[1..] + b;
    }
  }

  lemma {:induction false} FieldsConcat(t: Trie, a: seq<Move>, b: seq<Move>, i: nat)
    requires FieldsOk(t, a, i) && FieldsOk(t, b, i + |a|)
    ensures FieldsOk(t, a + b, i)
    decreases |a|
  {
    if a == [] {
      assert a + b == b;
    } else {
      FieldsConcat(t, a[1..], b, i + 1);
      assert (a + b)[0] == a[0] && (a + b)[1..] == a[1..] + b;
    }
  }

  lemma {:induction false} MovesMean(t: Trie, ms: seq<Move>, i: nat, k: nat)
    requires MovesOk(t, ms, i) && k < |ms|
    ensures MoveOk(t, ms[k], i + k)
    decreases |ms|
  {
    if k > 0 { MovesMean(t, ms[1..], i + 1, k - 1); }
  }

  lemma {:induction false} FieldsMean(t: Trie, ms: seq<Move>, i: nat, k: nat)
    requires FieldsOk(t, ms, i) && k < |ms|
    ensures FieldOk(t, ms[k], i + k)
    decreases |ms|
  {
    if k > 0 { FieldsMean(t, ms[1..], i + 1, k - 1); }
  }

  /** A container: both places are branches, of the two layouts. */
  predicate ContainerFits(t: Trie, c: Move) {
    && IsBranch(t, c.legacy, false) && OldOnly(At(t, c.legacy).value) && IsBranch(t, c.current, true)
    && c.legacy != [] && c.current != [] && c.legacy[0] != c.current[0]
  }

  predicate FamilyOk(t: Trie, f: Family, i: nat) {
    && |f.move.legacy| == 1 && IsLeaf(t, f.move.legacy, Old(i))
    && |f.move.current| == 2 && f.move.current[..1] == API_KEYS
  }

  lemma ContainerByCode(t: Trie, c: Move, legacy: Code, current: Code)
    requires Weighs(c.legacy, legacy) && Weighs(c.current, current) && legacy.Go? && current.Go?
    requires var sub := AtCode(t, legacy); sub.Some? && OldOnly(sub.value) && sub.value.Branch?
    requires var sub := AtCode(t, current); sub.Some? && sub.value.Branch? && sub.value.current
    requires legacy.key != current.key
    ensures ContainerFits(t, c)
  {
    AtWeighed(t, c.legacy, legacy);
    AtWeighed(t, c.current, current);
  }

  lemma FamilyByCode(t: Trie, f: Family, i: nat, legacy: Code)
    requires Weighs(f.move.legacy, legacy) && |f.move.legacy| == 1 && AtCode(t, legacy) == Some(Leaf(Old(i)))
    requires |f.move.current| == 2 && f.move.current[..1] == API_KEYS
    ensures FamilyOk(t, f, i)
  {
    AtWeighed(t, f.move.legacy, legacy);
  }

  /** The whole table, checked against the trie. */
  ghost predicate Checked(t: Trie, table: Table) {
    && t.Branch? && MovesOk(t, table.aliases, 0) && FieldsOk(t, table.fields, |table.aliases|)
    && (forall k | 0 <= k < |table.Containers()| :: ContainerFits(t, table.Containers()[k]))
    && (forall k | 0 <= k < |table.families| :: FamilyOk(t, table.families[k], |table.Moves()| + k))
    && (forall j, k | 0 <= j < k < |table.families| ::
          table.families[j].move.current != table.families[k].move.current)
    && (exists i :: 0 <= i < |table.fields| && table.fields[i].legacy == API_KEYS)
  }

  lemma MoveChecked(t: Trie, table: Table, i: nat)
    requires Checked(t, table) && i < |table.Moves()|
    ensures MoveOk(t, table.Moves()[i], i)
  {
    if i < |table.aliases| {
      MovesMean(t, table.aliases, 0, i);
    } else {
      FieldsMean(t, table.fields, |table.aliases|, i - |table.aliases|);
    }
  }

  // ---- what the rewrite asks of a table ---------------------------------------------

  lemma LeavesAreApart(t: Trie, table: Table)
    requires Checked(t, table)
    ensures LeavesApart(table.Moves())
  {
    var ms := table.Moves();
    forall i, j | 0 <= i < |ms| && 0 <= j < |ms|
      ensures ms[i].legacy != [] && ms[i].current != []
      ensures !Comparable(ms[i].legacy, ms[j].current)
      ensures ms[i].current == ms[j].current || !Comparable(ms[i].current, ms[j].current)
      ensures i != j ==> !Comparable(ms[i].legacy, ms[j].legacy)
    {
      MoveChecked(t, table, i);
      MoveChecked(t, table, j);
      var v, w := At(t, ms[i].current).value.mark, At(t, ms[j].current).value.mark;
      SpellingsDiffer(t, ms[i].legacy, Old(i), ms[j].current, w);
      SpellingsDiffer(t, ms[i].current, v, ms[j].current, w);
      SpellingsDiffer(t, ms[i].legacy, Old(i), ms[j].legacy, Old(j));
    }
  }

  lemma LeafAvoidsBranch(t: Trie, p: Path, m: Mark, q: Path, current: bool)
    requires IsLeaf(t, p, m) && IsBranch(t, q, current)
    ensures !(p <= q)
  {
    if p <= q { LeafEnds(t, p, m, q); }
  }

  /** A legacy container does not lead to anything of v8. */
  lemma ContainerAvoids(t: Trie, c: Move, q: Path)
    requires ContainerFits(t, c) && At(t, q).Some? && !OldOnly(At(t, q).value)
    ensures !(c.legacy <= q)
  {
    if c.legacy <= q { OldLeadsNowhereNew(t, c.legacy, q); }
  }

  /** A container and a leaf at the root lie beside each other. */
  lemma RootLeafBeside(t: Trie, p: Path, m: Mark, q: Path, current: bool)
    requires |p| == 1 && q != [] && IsLeaf(t, p, m) && IsBranch(t, q, current)
    ensures !Comparable(p, q)
  {
    LeafAvoidsBranch(t, p, m, q, current);
    assert q <= p ==> q == p;
  }

  lemma ApiLeaf(t: Trie, table: Table) returns (i: nat)
    requires Checked(t, table)
    ensures |table.aliases| <= i < |table.Moves()| && table.Moves()[i].legacy == API_KEYS && IsLeaf(t, API_KEYS, Old(i))
  {
    var j :| 0 <= j < |table.fields| && table.fields[j].legacy == API_KEYS;
    i := |table.aliases| + j;
    MoveChecked(t, table, i);
  }

  lemma MoveBesideContainer(t: Trie, m: Move, i: nat, c: Move)
    requires MoveOk(t, m, i) && ContainerFits(t, c)
    ensures !(m.legacy <= c.legacy) && !(m.current <= c.legacy) && !(c.legacy <= m.current)
    ensures !(m.legacy <= c.current) && !(m.current <= c.current)
  {
    var v := At(t, m.current).value.mark;
    LeafAvoidsBranch(t, m.legacy, Old(i), c.legacy, false);
    LeafAvoidsBranch(t, m.current, v, c.legacy, false);
    LeafAvoidsBranch(t, m.legacy, Old(i), c.current, true);
    LeafAvoidsBranch(t, m.current, v, c.current, true);
    ContainerAvoids(t, c, m.current);
  }

  lemma ContainersAreApart(t: Trie, table: Table)
    requires Checked(t, table)
    ensures ContainersApart(table.Moves(), table.Containers())
  {
    var ms, cs := table.Moves(), table.Containers();
    var a := ApiLeaf(t, table);
    forall k | 0 <= k < |cs|
      ensures cs[k].legacy != [] && cs[k].current != [] && !(cs[k].current <= cs[k].legacy)
      ensures !Comparable(cs[k].legacy, API_KEYS) && !Comparable(cs[k].current, API_KEYS)
    {
      RootLeafBeside(t, API_KEYS, Old(a), cs[k].legacy, false);
      RootLeafBeside(t, API_KEYS, Old(a), cs[k].current, true);
    }
    forall i, k | 0 <= i < |ms| && 0 <= k < |cs|
      ensures !(ms[i].legacy <= cs[k].legacy) && !(ms[i].current <= cs[k].legacy) && !(cs[k].legacy <= ms[i].current)
      ensures !(ms[i].legacy <= cs[k].current) && !(ms[i].current <= cs[k].current)
    {
      MoveChecked(t, table, i);
      MoveBesideContainer(t, ms[i], i, cs[k]);
    }
    forall j, k | 0 <= j < |cs| && 0 <= k < |cs| ensures !(cs[j].legacy <= cs[k].current) {
      ContainerAvoids(t, cs[j], cs[k].current);
    }
  }

  // ---- families -----------------------------------------------------------------------

  /** Below api-keys nothing else is spelled: what compares with a family's place is api-keys. */
  lemma BesideFamilyPlace(t: Trie, table: Table, p: Path, q: Path)
    requires Checked(t, table) && |p| == 2 && p[..1] == API_KEYS
    requires q != [] && At(t, q).Some? && q != API_KEYS
    ensures !Comparable(p, q)
  {
    var a := ApiLeaf(t, table);
    assert p <= q || q <= p ==> API_KEYS <= q;
    if API_KEYS <= q { LeafEnds(t, API_KEYS, Old(a), q); }
  }

  lemma FamilyBesideMove(t: Trie, table: Table, k: nat, i: nat)
    requires Checked(t, table) && k < |table.families| && i < |table.Moves()|
    ensures var f, m := table.families[k].move, table.Moves()[i];
      && !Comparable(f.legacy, m.legacy) && !Comparable(f.legacy, m.current) && !Comparable(f.current, m.current)
      && (m.legacy != API_KEYS ==> !Comparable(f.current, m.legacy))
  {
    var f, m := table.families[k].move, table.Moves()[i];
    MoveChecked(t, table, i);
    SpellingsDiffer(t, f.legacy, Old(|table.Moves()| + k), m.legacy, Old(i));
    SpellingsDiffer(t, f.legacy, Old(|table.Moves()| + k), m.current, At(t, m.current).value.mark);
    BesideFamilyPlace(t, table, f.current, m.current);
    if m.legacy != API_KEYS {
      assert m.legacy != [];
      BesideFamilyPlace(t, table, f.current, m.legacy);
    }
  }

  lemma FamilyBesideFamily(t: Trie, table: Table, j: nat, k: nat)
    requires Checked(t, table) && j < |table.families| && k < |table.families|
    ensures var f, g := table.families[j].move, table.families[k].move;
      && !Comparable(f.legacy, g.current) && !Comparable(f.legacy, API_KEYS)
      && (j != k ==> !Comparable(f.legacy, g.legacy) && !Comparable(f.current, g.current))
  {
    var f, g, n := table.families[j].move, table.families[k].move, |table.Moves()|;
    var a := ApiLeaf(t, table);
    SpellingsDiffer(t, f.legacy, Old(n + j), API_KEYS, Old(a));
    assert Comparable(API_KEYS, API_KEYS);
    BesideFamilyPlace(t, table, g.current, f.legacy);
    SpellingsDiffer(t, f.legacy, Old(n + j), g.legacy, Old(n + k));
    assert Comparable(f.current, g.current) ==> f.current == g.current;
  }

  lemma FamiliesAreApart(t: Trie, table: Table)
    requires Checked(t, table)
    ensures FamiliesApart(table.Moves(), table.families)
  {
    var ms, fs := table.Moves(), table.families;
    forall i, k | 0 <= i < |ms| && 0 <= k < |fs|
      ensures !Comparable(fs[k].move.legacy, ms[i].legacy) && !Comparable(fs[k].move.legacy, ms[i].current)
      ensures !Comparable(fs[k].move.current, ms[i].current)
      ensures ms[i].legacy != API_KEYS ==> !Comparable(fs[k].move.current, ms[i].legacy)
    {
      FamilyBesideMove(t, table, k, i);
    }
    forall j, k | 0 <= j < |fs| && 0 <= k < |fs|
      ensures fs[j].move.legacy != [] && API_KEYS <= fs[j].move.current && fs[j].move.current != API_KEYS
      ensures !Comparable(fs[j].move.legacy, API_KEYS) && !Comparable(fs[j].move.legacy, fs[k].move.current)
      ensures j != k ==> !Comparable(fs[j].move.legacy, fs[k].move.legacy) && !Comparable(fs[j].move.current, fs[k].move.current)
    {
      FamilyBesideFamily(t, table, j, k);
    }
  }

  // ---- the rest -------------------------------------------------------------------------

  lemma KeysAreApart(t: Trie, table: Table)
    requires Checked(t, table)
    ensures forall i | 0 <= i < |table.Moves()| :: !Comparable(table.Moves()[i].current, API_KEYS)
    ensures forall i | 0 <= i < |table.Moves()| ::
      table.Moves()[i].legacy == API_KEYS || !Comparable(table.Moves()[i].legacy, API_KEYS)
    ensures forall i | 0 <= i < |table.aliases| :: table.aliases[i].legacy != API_KEYS
  {
    var ms := table.Moves();
    var a := ApiLeaf(t, table);
    forall i | 0 <= i < |ms|
      ensures !Comparable(ms[i].current, API_KEYS)
      ensures i != a ==> !Comparable(ms[i].legacy, API_KEYS)
      ensures i == a ==> ms[i].legacy == API_KEYS
    {
      MoveChecked(t, table, i);
      SpellingsDiffer(t, ms[i].current, At(t, ms[i].current).value.mark, API_KEYS, Old(a));
      SpellingsDiffer(t, ms[i].legacy, Old(i), API_KEYS, Old(a));
    }
    forall i | 0 <= i < |table.aliases| ensures table.aliases[i].legacy != API_KEYS {
      assert table.aliases[i] == ms[i] && Comparable(API_KEYS, API_KEYS);
    }
  }

  lemma FieldsDiffer(t: Trie, table: Table)
    requires Checked(t, table)
    ensures forall j, k | 0 <= j < k < |table.fields| :: table.fields[j].current != table.fields[k].current
  {
    forall j, k | 0 <= j < k < |table.fields| ensures table.fields[j].current != table.fields[k].current {
      FieldsMean(t, table.fields, |table.aliases|, j);
      FieldsMean(t, table.fields, |table.aliases|, k);
    }
  }

  lemma VersionBeside(t: Trie, table: Table, m: Mark)
    requires Checked(t, table) && IsLeaf(t, VERSION, m) && m.New?
    ensures forall i | 0 <= i < |table.Moves()| ::
      !Comparable(table.Moves()[i].legacy, VERSION) && !Comparable(table.Moves()[i].current, VERSION)
    ensures forall k | 0 <= k < |table.families| ::
      !Comparable(table.families[k].move.legacy, VERSION) && !Comparable(table.families[k].move.current, VERSION)
    ensures forall k | 0 <= k < |table.Containers()| ::
      !Comparable(table.Containers()[k].legacy, VERSION) && !Comparable(table.Containers()[k].current, VERSION)
  {
    var ms, fs, cs := table.Moves(), table.families, table.Containers();
    var a := ApiLeaf(t, table);
    assert VERSION != API_KEYS;
    forall i | 0 <= i < |ms| ensures !Comparable(ms[i].legacy, VERSION) && !Comparable(ms[i].current, VERSION) {
      MoveChecked(t, table, i);
      SpellingsDiffer(t, ms[i].legacy, Old(i), VERSION, m);
      SpellingsDiffer(t, ms[i].current, At(t, ms[i].current).value.mark, VERSION, m);
    }
    forall k | 0 <= k < |fs| ensures !Comparable(fs[k].move.legacy, VERSION) && !Comparable(fs[k].move.current, VERSION) {
      SpellingsDiffer(t, fs[k].move.legacy, Old(|ms| + k), VERSION, m);
      BesideFamilyPlace(t, table, fs[k].move.current, VERSION);
    }
    forall k | 0 <= k < |cs| ensures !Comparable(cs[k].legacy, VERSION) && !Comparable(cs[k].current, VERSION) {
      RootLeafBeside(t, VERSION, m, cs[k].legacy, false);
      RootLeafBeside(t, VERSION, m, cs[k].current, true);
    }
  }

  lemma FamilyBesideContainer(t: Trie, table: Table, k: nat, c: Move)
    requires Checked(t, table) && k < |table.families| && ContainerFits(t, c)
    ensures var f := table.families[k].move;
      && !Comparable(c.legacy, f.legacy) && !Comparable(c.legacy, f.current)
      && !Comparable(c.current, f.legacy) && !Comparable(c.current, f.current)
  {
    var f := table.families[k].move;
    var a := ApiLeaf(t, table);
    RootLeafBeside(t, f.legacy, Old(|table.Moves()| + k), c.legacy, false);
    RootLeafBeside(t, f.legacy, Old(|table.Moves()| + k), c.current, true);
    BesideFamilyPlace(t, table, f.current, c.legacy);
    BesideFamilyPlace(t, table, f.current, c.current);
  }

  lemma OthersAreApart(t: Trie, table: Table, m: Mark)
    requires Checked(t, table) && IsLeaf(t, VERSION, m) && m.New?
    ensures OthersApart(table)
  {
    VersionBeside(t, table, m);
    forall c, f | c in table.Containers() && f in table.families
      ensures !Comparable(c.legacy, f.move.legacy) && !Comparable(c.legacy, f.move.current)
      ensures !Comparable(c.current, f.move.legacy) && !Comparable(c.current, f.move.current)
    {
      var j :| 0 <= j < |table.Containers()| && table.Containers()[j] == c;
      var k :| 0 <= k < |table.families| && table.families[k] == f;
      FamilyBesideContainer(t, table, k, c);
    }
  }

  lemma PathsNotEmpty(table: Table)
    requires LeavesApart(table.Moves()) && ContainersApart(table.Moves(), table.Containers())
    requires FamiliesApart(table.Moves(), table.families)
    ensures table.Paths()
  {
    forall m | m in table.Moves() + table.Containers() ensures m.legacy != [] && m.current != [] {
      if m in table.Moves() {
        var i :| 0 <= i < |table.Moves()| && table.Moves()[i] == m;
        assert table.Moves()[i].legacy != [];
      } else {
        var i :| 0 <= i < |table.Containers()| && table.Containers()[i] == m;
        assert table.Containers()[i].legacy != [];
      }
    }
  }

  /** Main result: a table checked row by row is one the layout rewrite is right about. */
  lemma CheckedSeparated(t: Trie, table: Table, m: Mark)
    requires Checked(t, table) && IsLeaf(t, VERSION, m) && m.New? && KnownPaths(table)
    ensures Separated(table)
  {
    LeavesAreApart(t, table);
    ContainersAreApart(t, table);
    FamiliesAreApart(t, table);
    PathsNotEmpty(table);
    KeysAreApart(t, table);
    FieldsDiffer(t, table);
    OthersAreApart(t, table, m);
  }

  // ---- permitted keys -------------------------------------------------------------------

  /** The keys that follow a path in the v8 places. */
  function KeysBelow(ms: seq<Move>, q: Path): set<string> {
    set m | m in ms && q <= m.current && |q| < |m.current| :: m.current[|q|]
  }

  function Prefixes(ms: seq<Move>): set<Path> {
    set m, k | m in ms && 0 <= k < |m.current| :: m.current[..k]
  }

  /** What v8 permits: the keys of its places, and some more at the root and at other paths. */
  function KnownBy(ms: seq<Move>, extras: map<Path, set<string>>): map<Path, set<string>> {
    map q | q in Prefixes(ms) + extras.Keys :: KeysBelow(ms, q) + if q in extras then extras[q] else {}
  }

  /** More keys are permitted at the root, and where the tables spell no setting. */
  ghost predicate ExtrasFit(t: Trie, extras: map<Path, set<string>>) {
    [] in extras && forall q | q in extras :: NoLeaf(t, q)
  }

  /** Nothing is spelled at the path itself. */
  predicate NoLeaf(t: Trie, q: Path) {
    Outside(t, q) || (At(t, q).Some? && At(t, q).value.Branch?)
  }

  lemma LeafIsNoExtra(t: Trie, extras: map<Path, set<string>>, p: Path, m: Mark)
    requires ExtrasFit(t, extras) && IsLeaf(t, p, m)
    ensures p !in extras
  {
    if p in extras {
      assert NoLeaf(t, p);
      if Outside(t, p) { OutsideNowhere(t, p); }
    }
  }

  lemma InPrefixes(ms: seq<Move>, m: Move, k: nat)
    requires m in ms && k < |m.current|
    ensures m.current[..k] in Prefixes(ms) && m.current[k] in KeysBelow(ms, m.current[..k])
  {
  }

  /** Every key of a place is permitted. */
  lemma {:induction false} PlacePermitted(ms: seq<Move>, extras: map<Path, set<string>>, m: Move, k: nat)
    requires m in ms && k <= |m.current| && m.current !in Prefixes(ms) + extras.Keys
    ensures Permitted(m.current[..k], m.current[k..], KnownBy(ms, extras))
    decreases |m.current| - k
  {
    var p := m.current;
    assert p[..|p|] == p;
    if k < |p| {
      InPrefixes(ms, m, k);
      assert p[k..][0] == p[k] && p[..k] + [p[k]] == p[..k + 1] && p[k..][1..] == p[k + 1..];
      PlacePermitted(ms, extras, m, k + 1);
    }
  }

  /** A root key of its own is permitted, with whatever follows. */
  lemma RootPermitted(ms: seq<Move>, extras: map<Path, set<string>>, p: Path)
    requires [] in extras && p != [] && p[0] in extras[[]] && [p[0]] !in Prefixes(ms) + extras.Keys
    ensures Permitted([], p, KnownBy(ms, extras))
  {
    assert [] + [p[0]] == [p[0]];
  }

  /** The first k keys of a container lead to a place of v8, the next one does not. */
  lemma {:induction false} PrefixForbidden(known: map<Path, set<string>>, p: Path, j: nat, k: nat)
    requires j <= k < |p| && forall i | j <= i <= k :: p[..i] in known
    requires p[k] !in known[p[..k]]
    ensures Forbidden(p[..j], p[j..], known)
    decreases k - j
  {
    assert p[j..][0] == p[j] && p[..j] + [p[j]] == p[..j + 1] && p[j..][1..] == p[j + 1..];
    if j < k { PrefixForbidden(known, p, j + 1, k); }
  }

  /** The container is entered by a key of the legacy layout alone, after k keys it shares with v8. */
  predicate Enters(t: Trie, extras: map<Path, set<string>>, p: Path, k: nat) {
    && k < |p| && At(t, p[..k + 1]).Some? && OldOnly(At(t, p[..k + 1]).value)
    && (p[..k] in extras ==> p[k] !in extras[p[..k]])
  }

  ghost predicate RootsNumbered(extras: map<Path, set<string>>, numbers: set<int>) {
    [] in extras && forall r | r in extras[[]] :: Weigh(r) in numbers
  }

  lemma EntersByCode(t: Trie, extras: map<Path, set<string>>, numbers: set<int>, p: Path, k: nat, prefix: Path, code: Code)
    requires k < |p| && prefix == p[..k + 1] && Weighs(prefix, code)
    requires var sub := AtCode(t, code); sub.Some? && OldOnly(sub.value)
    requires RootsNumbered(extras, numbers)
    requires if k == 0 then code.Go? && code.key !in numbers else p[..k] !in extras
    ensures Enters(t, extras, p, k)
  {
    if k == 0 { assert p[..0] == [] && prefix[0] == p[0]; }
    AtWeighed(t, prefix, code);
  }

  lemma ContainerForbidden(t: Trie, ms: seq<Move>, extras: map<Path, set<string>>, p: Path, k: nat, m: Move)
    requires [] in extras && Enters(t, extras, p, k) && (k > 0 ==> m in ms && p[..k] < m.current)
    requires forall n | n in ms :: At(t, n.current).Some? && !OldOnly(At(t, n.current).value)
    ensures Forbidden([], p, KnownBy(ms, extras))
  {
    forall n | n in ms && p[..k] <= n.current && |p[..k]| < |n.current| ensures n.current[k] != p[k] {
      if n.current[k] == p[k] {
        assert p[..k + 1] == p[..k] + [p[k]] && n.current[..k + 1] == n.current[..k] + [n.current[k]];
        OldLeadsNowhereNew(t, p[..k + 1], n.current);
      }
    }
    forall i | 0 <= i <= k ensures p[..i] in KnownBy(ms, extras) {
      if i > 0 {
        assert p[..i] == m.current[..i];
        InPrefixes(ms, m, i);
      } else {
        assert p[..0] == [];
      }
    }
    PrefixForbidden(KnownBy(ms, extras), p, 0, k);
    assert p[..0] == [] && p[0..] == p;
  }

  /** Where one of the extra keys ends, everything on the way there is permitted. */
  ghost predicate Reached(known: map<Path, set<string>>, q: Path) {
    forall i | 0 <= i < |q| :: q[..i] in known && q[i] in known[q[..i]]
  }

  lemma {:induction false} ReachedPermitted(known: map<Path, set<string>>, p: Path, j: nat)
    requires Reached(known, p) && j <= |p| && p !in known
    ensures Permitted(p[..j], p[j..], known)
    decreases |p| - j
  {
    assert p[..|p|] == p;
    if j < |p| {
      assert p[j..][0] == p[j] && p[..j] + [p[j]] == p[..j + 1] && p[j..][1..] == p[j + 1..];
      ReachedPermitted(known, p, j + 1);
    }
  }

  /** An extra key that is not spelled by the tables is permitted with whatever stands below it. */
  lemma ExtraPermitted(t: Trie, ms: seq<Move>, extras: map<Path, set<string>>, q: Path, key: string)
    requires AllPlaced(t, ms) && q in extras && key in extras[q] && Reached(KnownBy(ms, extras), q)
    requires Outside(t, q + [key]) && q + [key] !in extras
    ensures Permitted([], q + [key], KnownBy(ms, extras))
  {
    var p, known := q + [key], KnownBy(ms, extras);
    if p in Prefixes(ms) {
      var n, k :| n in ms && 0 <= k < |n.current| && n.current[..k] == p;
      OutsideNoPrefix(t, p, n.current);
    }
    forall i | 0 <= i < |p| ensures p[..i] in known && p[i] in known[p[..i]] {
      assert p[..i] == if i < |q| then q[..i] else q;
    }
    ReachedPermitted(known, p, 0);
    assert p[..0] == [] && p[0..] == p;
  }

  /** A leaf is no proper prefix of a place. */
  lemma LeafNoPrefix(t: Trie, ms: seq<Move>, p: Path, m: Mark)
    requires IsLeaf(t, p, m) && forall n | n in ms :: At(t, n.current).Some?
    ensures p !in Prefixes(ms)
  {
    if p in Prefixes(ms) {
      var n, k :| n in ms && 0 <= k < |n.current| && n.current[..k] == p;
      LeafEnds(t, p, m, n.current);
    }
  }

  /** The path enters the legacy layout, at the root or where a v8 place leads on. */
  ghost predicate EntersLegacy(t: Trie, ms: seq<Move>, extras: map<Path, set<string>>, p: Path) {
    exists k: nat :: Enters(t, extras, p, k) && (k > 0 ==> LeadsOn(ms, p[..k]))
  }

  /** A v8 place lies below the path. */
  ghost predicate LeadsOn(ms: seq<Move>, q: Path) {
    exists i :: 0 <= i < |ms| && q < ms[i].current
  }

  ghost predicate AllEnter(t: Trie, table: Table, ms: seq<Move>, extras: map<Path, set<string>>) {
    forall c | c in table.Containers() :: EntersLegacy(t, ms, extras, c.legacy)
  }

  /** The v8 places of the moves and containers stand in the trie. */
  ghost predicate AllPlaced(t: Trie, ms: seq<Move>) {
    forall n | n in ms :: At(t, n.current).Some? && !OldOnly(At(t, n.current).value)
  }

  lemma PlacesStand(t: Trie, table: Table)
    requires Checked(t, table)
    ensures AllPlaced(t, table.Moves() + table.structs)
  {
    forall n | n in table.Moves() + table.structs ensures At(t, n.current).Some? && !OldOnly(At(t, n.current).value) {
      if n in table.Moves() {
        var i :| 0 <= i < |table.Moves()| && table.Moves()[i] == n;
        MoveChecked(t, table, i);
      } else {
        var k :| 0 <= k < |table.structs| && table.structs[k] == n;
        assert table.Containers()[k] == n;
      }
    }
  }

  lemma MovePermitted(t: Trie, table: Table, extras: map<Path, set<string>>, i: nat)
    requires Checked(t, table) && AllPlaced(t, table.Moves() + table.structs) && i < |table.Moves()| && ExtrasFit(t, extras)
    ensures Permitted([], table.Moves()[i].current, KnownBy(table.Moves() + table.structs, extras))
  {
    var ms, n := table.Moves() + table.structs, table.Moves()[i];
    MoveChecked(t, table, i);
    LeafNoPrefix(t, ms, n.current, At(t, n.current).value.mark);
    LeafIsNoExtra(t, extras, n.current, At(t, n.current).value.mark);
    assert n in ms && n.current[..0] == [] && n.current[0..] == n.current;
    PlacePermitted(ms, extras, n, 0);
  }

  lemma FamilyPermitted(t: Trie, table: Table, extras: map<Path, set<string>>, k: nat)
    requires Checked(t, table) && AllPlaced(t, table.Moves() + table.structs) && k < |table.families|
    requires ExtrasFit(t, extras) && API_KEYS[0] in extras[[]]
    ensures Permitted([], table.families[k].move.current, KnownBy(table.Moves() + table.structs, extras))
  {
    var p := table.families[k].move.current;
    var a := ApiLeaf(t, table);
    LeafNoPrefix(t, table.Moves() + table.structs, API_KEYS, Old(a));
    LeafIsNoExtra(t, extras, API_KEYS, Old(a));
    assert p[0] == p[..1][0] && [API_KEYS[0]] == API_KEYS;
    RootPermitted(table.Moves() + table.structs, extras, p);
  }

  lemma EnteredForbidden(t: Trie, ms: seq<Move>, extras: map<Path, set<string>>, p: Path)
    requires AllPlaced(t, ms) && [] in extras && EntersLegacy(t, ms, extras, p)
    ensures Forbidden([], p, KnownBy(ms, extras))
  {
    var k: nat :| Enters(t, extras, p, k) && (k > 0 ==> LeadsOn(ms, p[..k]));
    if k > 0 {
      var i :| 0 <= i < |ms| && p[..k] < ms[i].current;
      ContainerForbidden(t, ms, extras, p, k, ms[i]);
    } else {
      ContainerForbidden(t, ms, extras, p, k, Move([], []));
    }
  }

  /** The key lists and the version are permitted at the root. */
  ghost predicate OwnRoots(extras: map<Path, set<string>>) {
    [] in extras && API_KEYS[0] in extras[[]] && VERSION[0] in extras[[]]
  }

  lemma KnownIsRight(t: Trie, table: Table, m: Mark, extras: map<Path, set<string>>)
    requires Checked(t, table) && IsLeaf(t, VERSION, m) && m.New?
    requires table.known == KnownBy(table.Moves() + table.structs, extras)
    requires ExtrasFit(t, extras) && OwnRoots(extras)
    requires AllEnter(t, table, table.Moves() + table.structs, extras)
    ensures KnownPaths(table)
  {
    var ms := table.Moves() + table.structs;
    PlacesStand(t, table);
    forall i | 0 <= i < |table.Moves()| ensures Permitted([], table.Moves()[i].current, table.known) {
      MovePermitted(t, table, extras, i);
    }
    forall f | f in table.families ensures Permitted([], f.move.current, table.known) {
      var k :| 0 <= k < |table.families| && table.families[k] == f;
      FamilyPermitted(t, table, extras, k);
    }
    LeafNoPrefix(t, ms, VERSION, m);
    LeafIsNoExtra(t, extras, VERSION, m);
    assert [VERSION[0]] == VERSION;
    RootPermitted(ms, extras, VERSION);
    forall c | c in table.Containers() ensures Forbidden([], c.legacy, table.known) {
      EnteredForbidden(t, ms, extras, c.legacy);
    }
  }

  /** The containers of one table: branches, entered after k keys shared with v8. */
  ghost predicate Entered(t: Trie, cs: seq<Move>, extras: map<Path, set<string>>, k: nat) {
    forall i | 0 <= i < |cs| :: ContainerFits(t, cs[i]) && Enters(t, extras, cs[i].legacy, k)
  }

  lemma ContainerEnters(t: Trie, table: Table, extras: map<Path, set<string>>, shared: Path, place: nat, c: Move)
    requires Entered(t, table.structs, extras, 0) && Entered(t, table.sharedStructs, extras, |shared|)
    requires forall i | 0 <= i < |table.sharedStructs| :: shared <= table.sharedStructs[i].legacy
    requires place < |table.fields| && shared < table.fields[place].current && c in table.Containers()
    ensures ContainerFits(t, c) && EntersLegacy(t, table.Moves() + table.structs, extras, c.legacy)
  {
    var ms, n := table.Moves() + table.structs, |table.aliases| + place;
    assert ms[n] == table.fields[place];
    if c in table.structs {
      var i :| 0 <= i < |table.structs| && table.structs[i] == c;
      assert Enters(t, extras, c.legacy, 0);
    } else {
      var i :| 0 <= i < |table.sharedStructs| && table.sharedStructs[i] == c;
      assert c.legacy[..|shared|] == shared;
      assert Enters(t, extras, c.legacy, |shared|) && LeadsOn(ms, shared);
    }
  }

  lemma RowsEnter(t: Trie, table: Table, extras: map<Path, set<string>>, shared: Path, place: nat)
    requires Entered(t, table.structs, extras, 0) && Entered(t, table.sharedStructs, extras, |shared|)
    requires forall i | 0 <= i < |table.sharedStructs| :: shared <= table.sharedStructs[i].legacy
    requires place < |table.fields| && shared < table.fields[place].current
    ensures AllEnter(t, table, table.Moves() + table.structs, extras)
  {
    forall c | c in table.Containers() ensures EntersLegacy(t, table.Moves() + table.structs, extras, c.legacy) {
      ContainerEnters(t, table, extras, shared, place, c);
    }
  }

  lemma RowsChecked(t: Trie, table: Table, extras: map<Path, set<string>>, k: nat, api: nat)
    requires t.Branch? && MovesOk(t, table.aliases, 0) && FieldsOk(t, table.fields, |table.aliases|)
    requires Entered(t, table.structs, extras, 0) && Entered(t, table.sharedStructs, extras, k)
    requires api < |table.fields| && table.fields[api].legacy == API_KEYS
    requires forall k | 0 <= k < |table.families| :: FamilyOk(t, table.families[k], |table.aliases| + |table.fields| + k)
    requires forall j, k | 0 <= j < k < |table.families| ::
      table.families[j].move.current != table.families[k].move.current
    ensures Checked(t, table)
  {
    forall i | 0 <= i < |table.Containers()| ensures ContainerFits(t, table.Containers()[i]) {
      if i < |table.structs| {
        assert ContainerFits(t, table.structs[i]);
      } else {
        assert ContainerFits(t, table.sharedStructs[i - |table.structs|]);
      }
    }
  }

  /** Main result: a table whose rows are checked one by one is one the layout rewrite is right about. */
  lemma RowsSeparated(t: Trie, table: Table, m: Mark, extras: map<Path, set<string>>, shared: Path, place: nat, api: nat)
    requires t.Branch? && MovesOk(t, table.aliases, 0) && FieldsOk(t, table.fields, |table.aliases|)
    requires Entered(t, table.structs, extras, 0) && Entered(t, table.sharedStructs, extras, |shared|)
    requires forall i | 0 <= i < |table.sharedStructs| :: shared <= table.sharedStructs[i].legacy
    requires place < |table.fields| && shared < table.fields[place].current
    requires api < |table.fields| && table.fields[api].legacy == API_KEYS
    requires forall k | 0 <= k < |table.families| :: FamilyOk(t, table.families[k], |table.aliases| + |table.fields| + k)
    requires forall j, k | 0 <= j < k < |table.families| ::
      table.families[j].move.current != table.families[k].move.current
    requires IsLeaf(t, VERSION, m) && m.New?
    requires ExtrasFit(t, extras) && OwnRoots(extras)
    requires table.known == KnownBy(table.Moves() + table.structs, extras)
    ensures Separated(table)
  {
    RowsEnter(t, table, extras, shared, place);
    RowsChecked(t, table, extras, |shared|, api);
    KnownIsRight(t, table, m, extras);
    CheckedSeparated(t, table, m);
  }

  /** A path with a leaf of its own lies beside everything the table spells. */
  lemma OwnLeafBeside(t: Trie, table: Table, p: Path, own: nat)
    requires Checked(t, table) && IsLeaf(t, p, Old(own)) && own >= |table.Moves()| + |table.families|
    ensures forall i | 0 <= i < |table.Moves()| ::
      !Comparable(table.Moves()[i].legacy, p) && !Comparable(table.Moves()[i].current, p)
    ensures forall k | 0 <= k < |table.families| ::
      !Comparable(table.families[k].move.legacy, p) && !Comparable(table.families[k].move.current, p)
    ensures forall k | 0 <= k < |table.Containers()| ::
      !(p <= table.Containers()[k].legacy) && !(p <= table.Containers()[k].current)
    ensures !Comparable(API_KEYS, p)
  {
    var a := ApiLeaf(t, table);
    SpellingsDiffer(t, API_KEYS, Old(a), p, Old(own));
    assert p != [] && p != API_KEYS by { assert Comparable(API_KEYS, API_KEYS); }
    forall i | 0 <= i < |table.Moves()|
      ensures !Comparable(table.Moves()[i].legacy, p) && !Comparable(table.Moves()[i].current, p)
    {
      MoveChecked(t, table, i);
      SpellingsDiffer(t, table.Moves()[i].legacy, Old(i), p, Old(own));
      SpellingsDiffer(t, table.Moves()[i].current, At(t, table.Moves()[i].current).value.mark, p, Old(own));
    }
    forall k | 0 <= k < |table.families|
      ensures !Comparable(table.families[k].move.legacy, p) && !Comparable(table.families[k].move.current, p)
    {
      SpellingsDiffer(t, table.families[k].move.legacy, Old(|table.Moves()| + k), p, Old(own));
      BesideFamilyPlace(t, table, table.families[k].move.current, p);
    }
    forall k | 0 <= k < |table.Containers()|
      ensures !(p <= table.Containers()[k].legacy) && !(p <= table.Containers()[k].current)
    {
      LeafAvoidsBranch(t, p, Old(own), table.Containers()[k].legacy, false);
      LeafAvoidsBranch(t, p, Old(own), table.Containers()[k].current, true);
    }
  }

  lemma FamilyMarked(t: Trie, table: Table, k: nat)
    requires Checked(t, table) && k < |table.families|
    ensures API_KEYS <= table.families[k].move.current
  {
  }

  lemma BelowBeside(p: Path, q: Path, r: Path)
    requires p <= q && !Comparable(r, p)
    ensures !Comparable(q, r)
  {
    assert r <= q && |r| <= |p| ==> r <= p;
    assert r <= q && |p| <= |r| ==> p <= r;
  }

  /** A path the trie does not spell is one the tables say nothing about. */
  lemma OutsideUnmapped(t: Trie, table: Table, p: Path, m: Mark)
    requires Checked(t, table) && Outside(t, p) && IsLeaf(t, VERSION, m)
    ensures UnmappedSettings.Unmapped(table, p)
  {
    var a := ApiLeaf(t, table);
    OutsideBeside(t, p, API_KEYS, Old(a));
    OutsideBeside(t, p, VERSION, m);
    forall i | 0 <= i < |table.Moves()|
      ensures !Comparable(table.Moves()[i].legacy, p) && !Comparable(table.Moves()[i].current, p)
    {
      MoveChecked(t, table, i);
      OutsideBeside(t, p, table.Moves()[i].legacy, Old(i));
      OutsideBeside(t, p, table.Moves()[i].current, At(t, table.Moves()[i].current).value.mark);
    }
    forall k | 0 <= k < |table.families|
      ensures !Comparable(table.families[k].move.legacy, p) && !Comparable(table.families[k].move.current, p)
    {
      OutsideBeside(t, p, table.families[k].move.legacy, Old(|table.Moves()| + k));
      FamilyMarked(t, table, k);
      BelowBeside(API_KEYS, table.families[k].move.current, p);
    }
    forall c | c in table.Containers() ensures !(p <= c.legacy) && !(p <= c.current) {
      var k :| 0 <= k < |table.Containers()| && table.Containers()[k] == c;
      OutsideNoPrefix(t, p, c.legacy);
      OutsideNoPrefix(t, p, c.current);
    }
  }
}
