/**
 Rewriting a configuration document between the legacy and the v8 layout.

 Models CLIProxyAPI/internal/config/config_v8.go, flattenV8 and NormalizeConfigLayout,
 on documents whose aliases and merge keys are already expanded.  The path tables are a
 parameter; MigrationTheorems.Separated states what the moves rely on.
 */
module LayoutMigration {
  import opened Wrappers
  import opened YamlTree
  import opened KeyGroups

  /** A setting's spelling in the legacy layout (or a historical alias) and in v8. */
  datatype Move = Move(legacy: Path, current: Path)

  /** One credential family: its legacy list and its place below api-keys. */
  datatype Family = Family(move: Move, provider: string)

  const API_KEYS: Path := ["api-keys"]
  const VERSION: Path := ["config-version"]
  const ROUTING := "routing"
  const VERSION_8: Node := Scalar("!!int", "8")

  datatype Table = Table(
    aliases: seq<Move>,           // historical v8 spellings, in order of precedence
    fields: seq<Move>,            // legacy leaf fields
    structs: seq<Move>,           // legacy containers
    sharedStructs: seq<Move>,     // historical v8 containers
    families: seq<Family>,
    shared: set<string>,          // fields a credential group shares
    known: map<Path, set<string>>, // permitted keys of the structural mappings, the root being []
    weightOk: Node -> bool)
  {
    /** The moves in the order they are made. */
    function Moves(): seq<Move> { aliases + fields }

    function Containers(): seq<Move> { structs + sharedStructs }

    ghost predicate Paths() {
      && (forall m | m in Moves() + Containers() :: m.legacy != [] && m.current != [])
      && (forall f | f in families :: f.move.legacy != [] && f.move.current != [])
    }
  }

  datatype LayoutError =
    | NotMapping
    | DuplicateKeys
    | ContainerNotMapping(path: Path)
    | UnsupportedVersion
    | BadGroups(error: GroupError)
    | BadAllowFlag

  // ---- reading -----------------------------------------------------------

  /** The v8 api-keys mapping is not the legacy list of client keys. */
  function LegacyGet(n: Node, path: Path): Option<Node> {
    var v := Get(n, path);
    if path == API_KEYS && v.Some? && v.value.Mapping? then None else v
  }

  /** First legacy spelling of the v8 path that is present, in table order. */
  function FirstLegacy(n: Node, moves: seq<Move>, current: Path): Option<Node> {
    if moves == [] then None
    else if moves[0].current == current && LegacyGet(n, moves[0].legacy).Some? then LegacyGet(n, moves[0].legacy)
    else FirstLegacy(n, moves[1..], current)
  }

  /** The value a setting has: presence decides, the canonical path first. */
  function Effective(n: Node, moves: seq<Move>, current: Path): Option<Node> {
    if Get(n, current).Some? then Get(n, current) else FirstLegacy(n, moves, current)
  }

  // ---- NormalizeConfigLayout ---------------------------------------------

  /** Moves a legacy value to its v8 path unless that is taken; without migrate only drops shadowed values. */
  function StepMove(n: Node, m: Move, migrate: bool): Node
    requires m.legacy != []
  {
    if LegacyGet(n, m.legacy).None? || (Get(n, m.current).None? && !migrate) then n
    else
      var rest := Delete(n, m.legacy);
      if Get(n, m.current).None? then Set(rest, m.current, Get(n, m.legacy).value) else rest
  }

  function RunMoves(n: Node, moves: seq<Move>, migrate: bool): Node
    requires forall m | m in moves :: m.legacy != []
    decreases |moves|
  {
    if moves == [] then n else RunMoves(StepMove(n, moves[0], migrate), moves[1..], migrate)
  }

  /** An empty or null container has no leaf to move. */
  predicate Hollow(v: Option<Node>) {
    v.Some? && (IsNull(v.value) || v.value == EMPTY_MAP)
  }

  /** Null containers become empty mappings; the hollow ones are queued to be moved as a whole. */
  function ReviveContainers(n: Node, containers: seq<Move>, migrate: bool): (r: (Node, seq<Move>))
    ensures forall m | m in r.1 :: m in containers
    decreases |containers|
  {
    if containers == [] then (n, [])
    else
      var m := containers[0];
      if !Hollow(Get(n, m.legacy)) || (!migrate && Get(n, m.current).None?) then
        ReviveContainers(n, containers[1..], migrate)
      else
        var (r, queued) := ReviveContainers(Set(n, m.legacy, EMPTY_MAP), containers[1..], migrate);
        (r, [m] + queued)
  }

  function StepFamily(n: Node, t: Table, f: Family, migrate: bool): Node
    requires f.move.legacy != []
  {
    var keys := Get(n, f.move.legacy);
    if keys.None? || (Get(n, f.move.current).None? && !migrate) then n
    else if Get(n, f.move.current).None? then
      Delete(Set(n, f.move.current, GroupLegacyKeys(t.shared, keys.value, f.provider)), f.move.legacy)
    else
      Delete(n, f.move.legacy)
  }

  function RunFamilies(n: Node, t: Table, families: seq<Family>, migrate: bool): Node
    requires forall f | f in families :: f.move.legacy != []
    decreases |families|
  {
    if families == [] then n else RunFamilies(StepFamily(n, t, families[0], migrate), t, families[1..], migrate)
  }

  /** Drops the keys of structural mappings that v8 does not know. */
  function DropUnknown(n: Node, path: Path, known: map<Path, set<string>>): Node {
    if path in known && n.Mapping? then Mapping(DropUnknownEntries(n.entries, path, known)) else n
  }

  function DropUnknownEntries(es: seq<Entry>, path: Path, known: map<Path, set<string>>): seq<Entry>
    requires path in known
  {
    if es == [] then []
    else
      var rest := DropUnknownEntries(es[1..], path, known);
      if es[0].key in known[path] then
        [Entry(es[0].key, DropUnknown(es[0].value, path + [es[0].key], known))] + rest
      else rest
  }

  /** The document once settings and containers are moved, families untouched. */
  function Moved(n: Node, t: Table, migrate: bool): Node
    requires t.Paths()
  {
    var (revived, queued) := ReviveContainers(n, t.Containers(), migrate);
    RunMoves(RunMoves(revived, t.Moves(), migrate), queued, migrate)
  }

  function Normalize(n: Node, t: Table, migrate: bool): Node
    requires t.Paths()
  {
    var grouped := RunFamilies(Moved(n, t, migrate), t, t.families, migrate);
    if migrate then Set(DropUnknown(grouped, [], t.known), VERSION, VERSION_8) else grouped
  }

  // ---- flattenV8 ---------------------------------------------------------

  /** Moves a historical spelling to its canonical path; here the store comes before the removal. */
  function StepAlias(n: Node, m: Move): Node
    requires m.legacy != []
  {
    var v := Get(n, m.legacy);
    if v.None? then n
    else Delete(if Get(n, m.current).None? then Set(n, m.current, v.value) else n, m.legacy)
  }

  function RunAliases(n: Node, ms: seq<Move>): Node
    requires forall m | m in ms :: m.legacy != []
    decreases |ms|
  {
    if ms == [] then n else RunAliases(StepAlias(n, ms[0]), ms[1..])
  }

  function StepShared(n: Node, m: Move): Result<Node, LayoutError>
    requires m.legacy != []
  {
    var v := Get(n, m.legacy);
    if v.None? then Ok(n)
    else if !IsNull(v.value) && !v.value.Mapping? then Err(ContainerNotMapping(m.legacy))
    else if !Hollow(v) then Ok(n)
    else Ok(Delete(if Get(n, m.current).None? then Set(n, m.current, EMPTY_MAP) else n, m.legacy))
  }

  function RunShared(n: Node, ms: seq<Move>): Result<Node, LayoutError>
    requires forall m | m in ms :: m.legacy != []
    decreases |ms|
  {
    if ms == [] then Ok(n)
    else
      match StepShared(n, ms[0])
      case Err(e) => Err(e)
      case Ok(next) => RunShared(next, ms[1..])
  }

  /** Moves a v8 value back to the path the runtime decoder reads. */
  function StepBack(n: Node, m: Move): Node
    requires m.current != []
  {
    var v := Get(n, m.current);
    if v.None? then n else Set(Delete(n, m.current), m.legacy, v.value)
  }

  function RunBack(n: Node, ms: seq<Move>): Node
    requires forall m | m in ms :: m.current != []
    decreases |ms|
  {
    if ms == [] then n else RunBack(StepBack(n, ms[0]), ms[1..])
  }

  function ExpandFamilies(n: Node, source: Node, t: Table, fs: seq<Family>): Result<Node, LayoutError>
    decreases |fs|
  {
    if fs == [] then Ok(n)
    else
      var groups := Get(source, fs[0].move.current);
      if groups.None? then ExpandFamilies(n, source, t, fs[1..])
      else
        match ExpandGroups(t.shared, groups.value, fs[0].provider, t.weightOk)
        case Err(e) => Err(BadGroups(e))
        case Ok(keys) => ExpandFamilies(Set(n, fs[0].move.legacy, keys), source, t, fs[1..])
  }

  /** An ancestor of a v8 path is absent or a mapping; a null routing section means defaults. */
  predicate ContainerOk(n: Node, q: Path) {
    var v := Get(n, q);
    v.None? || v.value.Mapping? || (q == [ROUTING] && IsNull(v.value))
  }

  predicate ContainersOk(n: Node, ms: seq<Move>) {
    forall i | 0 <= i < |ms| :: forall k | 0 < k < |ms[i].current| :: ContainerOk(n, ms[i].current[..k])
  }

  predicate VersionOk(n: Node) {
    var v := Get(n, VERSION);
    v.Some? ==> v.value == VERSION_8
  }

  /** A v8 api-keys mapping must not reach the decoder as the list of client keys. */
  function DropKeyMapping(n: Node): Node {
    var v := Get(n, API_KEYS);
    if v.Some? && v.value.Mapping? then Delete(n, API_KEYS) else n
  }

  function FlattenTree(n: Node, source: Node, t: Table): Result<Node, LayoutError>
    requires t.Paths()
  {
    match RunShared(RunAliases(n, t.aliases), t.sharedStructs)
    case Err(e) => Err(e)
    case Ok(root) =>
      if !VersionOk(root) then Err(UnsupportedVersion)
      else ExpandFamilies(RunBack(DropKeyMapping(root), t.fields), source, t, t.families)
  }

  function Flatten(n: Node, t: Table): Result<Node, LayoutError>
    requires t.Paths()
  {
    if !n.Mapping? then Err(NotMapping)
    else if !Unique(n) then Err(DuplicateKeys)
    else if !ContainersOk(n, t.Moves()) then Err(ContainerNotMapping([]))
    else FlattenTree(n, n, t)
  }

  // ---- what one move does ------------------------------------------------

  lemma StepUnique(n: Node, m: Move, migrate: bool)
    requires Unique(n) && m.legacy != []
    ensures Unique(StepMove(n, m, migrate))
  {
    DeleteUnique(n, m.legacy);
    if Get(n, m.legacy).Some? {
      GetUnique(n, m.legacy);
      SetUnique(Delete(n, m.legacy), m.current, Get(n, m.legacy).value);
    }
  }

  lemma {:induction false} RunMovesUnique(n: Node, ms: seq<Move>, migrate: bool)
    requires Unique(n) && forall m | m in ms :: m.legacy != []
    ensures Unique(RunMoves(n, ms, migrate))
    decreases |ms|
  {
    if ms != [] {
      StepUnique(n, ms[0], migrate);
      RunMovesUnique(StepMove(n, ms[0], migrate), ms[1..], migrate);
    }
  }

  lemma StepFrame(n: Node, m: Move, migrate: bool, q: Path)
    requires Unique(n) && m.legacy != [] && !Comparable(m.legacy, q) && !Comparable(m.current, q)
    ensures Get(StepMove(n, m, migrate), q) == Get(n, q)
  {
    GetDeleteOther(n, m.legacy, q);
    if Get(n, m.legacy).Some? { GetSetOther(Delete(n, m.legacy), m.current, Get(n, m.legacy).value, q); }
  }

  lemma StepCurrent(n: Node, m: Move, migrate: bool)
    requires Unique(n) && m.legacy != [] && !Comparable(m.legacy, m.current)
    ensures Get(StepMove(n, m, migrate), m.current) ==
      if Get(n, m.current).Some? then Get(n, m.current) else if migrate then LegacyGet(n, m.legacy) else None
  {
    GetDeleteOther(n, m.legacy, m.current);
    if Get(n, m.legacy).Some? { GetSetSame(Delete(n, m.legacy), m.current, Get(n, m.legacy).value); }
  }

  lemma StepOld(n: Node, m: Move, migrate: bool)
    requires Unique(n) && m.legacy != [] && !Comparable(m.legacy, m.current)
    ensures LegacyGet(StepMove(n, m, migrate), m.legacy) ==
      if Get(n, m.current).Some? || migrate then None else LegacyGet(n, m.legacy)
  {
    GetDeleteSame(n, m.legacy);
    if Get(n, m.legacy).Some? { GetSetOther(Delete(n, m.legacy), m.current, Get(n, m.legacy).value, m.legacy); }
  }

  // ---- settings ----------------------------------------------------------

  /** Leaf paths neither lead through nor to each other, and no two spellings coincide. */
  ghost predicate LeavesApart(ms: seq<Move>) {
    && (forall i | 0 <= i < |ms| :: ms[i].legacy != [] && ms[i].current != [])
    && (forall i, j | 0 <= i < |ms| && 0 <= j < |ms| :: !Comparable(ms[i].legacy, ms[j].current))
    && (forall i, j | 0 <= i < |ms| && 0 <= j < |ms| ::
          ms[i].current == ms[j].current || !Comparable(ms[i].current, ms[j].current))
    && (forall i, j | 0 <= i < |ms| && 0 <= j < |ms| && i != j :: !Comparable(ms[i].legacy, ms[j].legacy))
  }

  lemma FirstLegacySame(n: Node, r: Node, ms: seq<Move>, c: Path)
    requires forall i | 0 <= i < |ms| && ms[i].current == c :: LegacyGet(n, ms[i].legacy) == LegacyGet(r, ms[i].legacy)
    ensures FirstLegacy(n, ms, c) == FirstLegacy(r, ms, c)
  {
    if ms != [] {
      assert forall i | 0 <= i < |ms[1..]| :: ms[1..][i] == ms[i + 1];
      FirstLegacySame(n, r, ms[1..], c);
    }
  }

  lemma FirstLegacyAt(n: Node, ms: seq<Move>, i: nat)
    requires i < |ms| && LegacyGet(n, ms[i].legacy).Some?
    requires forall j | 0 <= j < i :: LegacyGet(n, ms[j].legacy).None?
    ensures FirstLegacy(n, ms, ms[i].current) == LegacyGet(n, ms[i].legacy)
  {
    if i > 0 { FirstLegacyAt(n, ms[1..], i - 1); }
  }

  lemma FirstLegacyNone(n: Node, ms: seq<Move>, c: Path)
    requires forall i | 0 <= i < |ms| && ms[i].current == c :: LegacyGet(n, ms[i].legacy).None?
    ensures FirstLegacy(n, ms, c).None?
  {
    if ms != [] {
      assert forall i | 0 <= i < |ms[1..]| :: ms[1..][i] == ms[i + 1];
      FirstLegacyNone(n, ms[1..], c);
    }
  }

  ghost predicate AbsentBefore(n: Node, ms: seq<Move>, i: nat)
    requires i <= |ms|
  {
    forall j | 0 <= j < i :: LegacyGet(n, ms[j].legacy).None?
  }

  lemma StepEffective(n: Node, ms: seq<Move>, i: nat, migrate: bool, k: nat)
    requires LeavesApart(ms) && Unique(n) && i < |ms| && k < |ms|
    requires migrate ==> AbsentBefore(n, ms, i)
    ensures var r := StepMove(n, ms[i], migrate);
      && Effective(r, ms, ms[k].current) == Effective(n, ms, ms[k].current)
      && (migrate ==> AbsentBefore(r, ms, i + 1))
  {
    var m, c := ms[i], ms[k].current;
    var r := StepMove(n, m, migrate);
    StepOld(n, m, migrate);
    StepCurrent(n, m, migrate);
    forall j | 0 <= j < |ms| && j != i ensures LegacyGet(r, ms[j].legacy) == LegacyGet(n, ms[j].legacy) {
      StepFrame(n, m, migrate, ms[j].legacy);
    }
    if c != m.current {
      StepFrame(n, m, migrate, c);
      FirstLegacySame(n, r, ms, c);
    } else if Get(n, c).None? && migrate {
      if LegacyGet(n, m.legacy).Some? {
        FirstLegacyAt(n, ms, i);
      } else {
        FirstLegacySame(n, r, ms, c);
      }
    }
  }

  /** Running the moves from position i on keeps every setting's effective value. */
  lemma {:induction false} RunEffective(n: Node, ms: seq<Move>, i: nat, migrate: bool)
    requires LeavesApart(ms) && Unique(n) && i <= |ms|
    requires migrate ==> AbsentBefore(n, ms, i)
    ensures forall m | m in ms[i..] :: m.legacy != []
    ensures var r := RunMoves(n, ms[i..], migrate);
      && Unique(r)
      && (forall k | 0 <= k < |ms| :: Effective(r, ms, ms[k].current) == Effective(n, ms, ms[k].current))
      && (migrate ==> AbsentBefore(r, ms, |ms|))
    decreases |ms| - i
  {
    if i < |ms| {
      var next := StepMove(n, ms[i], migrate);
      StepUnique(n, ms[i], migrate);
      StepEffective(n, ms, i, migrate, i);
      forall k | 0 <= k < |ms| ensures Effective(next, ms, ms[k].current) == Effective(n, ms, ms[k].current) {
        StepEffective(n, ms, i, migrate, k);
      }
      RunEffective(next, ms, i + 1, migrate);
      assert ms[i..][0] == ms[i] && ms[i..][1..] == ms[i + 1..];
    }
  }

  // ---- containers --------------------------------------------------------

  /** Nothing is stored below the path. */
  ghost predicate Bare(n: Node, q: Path) {
    Get(n, q).None? || Get(n, q) == Some(EMPTY_MAP)
  }

  lemma QuietSet(n: Node, p: Path, q: Path)
    requires Get(n, p).None? || Hollow(Get(n, p))
    requires !(q <= p)
    ensures Get(Set(n, p, EMPTY_MAP), q) == Get(n, q)
  {
    if p <= q {
      GetSetBelow(n, p, EMPTY_MAP, q);
      ProperPrefix(p, q);
      GetBelowLeaf(n, p, q);
    } else {
      GetSetOther(n, p, EMPTY_MAP, q);
    }
  }

  lemma SetBare(n: Node, p: Path, q: Path)
    requires Get(n, p).None? || Hollow(Get(n, p))
    requires Bare(n, q) && (q <= p ==> Get(n, p).Some?)
    ensures Bare(Set(n, p, EMPTY_MAP), q)
  {
    if p <= q {
      GetSetBelow(n, p, EMPTY_MAP, q);
    } else if q <= p {
      ProperPrefix(q, p);
      GetBelowLeaf(n, q, p);
    } else {
      GetSetOther(n, p, EMPTY_MAP, q);
    }
  }

  lemma DeleteBare(n: Node, p: Path, q: Path)
    requires Unique(n) && p != [] && Bare(n, q)
    ensures Bare(Delete(n, p), q)
  {
    if p <= q {
      GetDeleteBelow(n, p, q);
    } else if q <= p {
      ProperPrefix(q, p);
      GetBelowLeaf(n, q, p);
      DeleteAbsent(n, p);
    } else {
      GetDeleteOther(n, p, q);
    }
  }

  lemma QuietDelete(n: Node, p: Path, q: Path)
    requires Unique(n) && p != [] && (Bare(n, p) || Hollow(Get(n, p))) && !(q <= p)
    ensures Get(Delete(n, p), q) == Get(n, q)
  {
    if p <= q {
      ProperPrefix(p, q);
      GetDeleteBelow(n, p, q);
      GetBelowLeaf(n, p, q);
    } else {
      GetDeleteOther(n, p, q);
    }
  }

  /** A container leads to no leaf's place and is entered by no move. */
  ghost predicate ContainersApart(ms: seq<Move>, cs: seq<Move>) {
    && (forall k | 0 <= k < |cs| :: cs[k].legacy != [] && cs[k].current != [] && !(cs[k].current <= cs[k].legacy)
          && !Comparable(cs[k].legacy, API_KEYS) && !Comparable(cs[k].current, API_KEYS))
    && (forall i, k | 0 <= i < |ms| && 0 <= k < |cs| ::
          !(ms[i].legacy <= cs[k].legacy) && !(ms[i].current <= cs[k].legacy) && !(cs[k].legacy <= ms[i].current))
    && (forall i, k | 0 <= i < |ms| && 0 <= k < |cs| ::
          !(ms[i].legacy <= cs[k].current) && !(ms[i].current <= cs[k].current))
    && (forall j, k | 0 <= j < |cs| && 0 <= k < |cs| :: !(cs[j].legacy <= cs[k].current))
  }

  /** Moving an empty container changes nothing that is not above it. */
  lemma QuietStep(n: Node, m: Move, migrate: bool, q: Path)
    requires Unique(n) && m.legacy != [] && m.legacy != API_KEYS && Bare(n, m.legacy)
    requires !Comparable(m.legacy, m.current) && !(q <= m.legacy) && !(q <= m.current)
    ensures Get(StepMove(n, m, migrate), q) == Get(n, q)
  {
    QuietDelete(n, m.legacy, q);
    GetDeleteOther(n, m.legacy, m.current);
    if Get(n, m.current).None? { QuietSet(Delete(n, m.legacy), m.current, q); }
  }

  /** A leaf's move puts nothing into a bare container. */
  lemma LeafStepBare(n: Node, m: Move, migrate: bool, q: Path)
    requires Unique(n) && m.legacy != [] && Bare(n, q)
    requires !(m.legacy <= q) && !Comparable(m.current, q)
    ensures Bare(StepMove(n, m, migrate), q)
  {
    if q <= m.legacy {
      ProperPrefix(q, m.legacy);
      GetBelowLeaf(n, q, m.legacy);
    } else {
      StepFrame(n, m, migrate, q);
    }
  }

  lemma ContainerStepBare(n: Node, m: Move, migrate: bool, q: Path)
    requires Unique(n) && m.legacy != [] && m.legacy != API_KEYS && Bare(n, m.legacy) && Bare(n, q)
    requires !Comparable(m.legacy, m.current) && !(q <= m.current)
    ensures Bare(StepMove(n, m, migrate), q)
  {
    DeleteBare(n, m.legacy, q);
    GetDeleteOther(n, m.legacy, m.current);
    if Get(n, m.current).None? { SetBare(Delete(n, m.legacy), m.current, q); }
  }

  lemma {:induction false} RunLeavesBare(n: Node, ms: seq<Move>, migrate: bool, q: Path)
    requires Unique(n) && Bare(n, q)
    requires forall i | 0 <= i < |ms| :: ms[i].legacy != [] && !(ms[i].legacy <= q) && !Comparable(ms[i].current, q)
    ensures Bare(RunMoves(n, ms, migrate), q)
    decreases |ms|
  {
    if ms != [] {
      LeafStepBare(n, ms[0], migrate, q);
      StepUnique(n, ms[0], migrate);
      RunLeavesBare(StepMove(n, ms[0], migrate), ms[1..], migrate, q);
    }
  }

  lemma {:induction false} RunContainersQuiet(n: Node, cs: seq<Move>, migrate: bool, q: Path)
    requires Unique(n)
    requires forall k | 0 <= k < |cs| :: cs[k].legacy != [] && cs[k].legacy != API_KEYS && Bare(n, cs[k].legacy)
    requires forall j, k | 0 <= j < |cs| && 0 <= k < |cs| :: !(cs[j].legacy <= cs[k].current)
    requires forall k | 0 <= k < |cs| :: !(cs[k].current <= cs[k].legacy)
    requires forall k | 0 <= k < |cs| :: !(q <= cs[k].legacy) && !(q <= cs[k].current)
    ensures forall m | m in cs :: m.legacy != []
    ensures Unique(RunMoves(n, cs, migrate)) && Get(RunMoves(n, cs, migrate), q) == Get(n, q)
    decreases |cs|
  {
    if cs != [] {
      var next := StepMove(n, cs[0], migrate);
      QuietStep(n, cs[0], migrate, q);
      StepUnique(n, cs[0], migrate);
      forall k | 0 <= k < |cs[1..]| ensures Bare(next, cs[1..][k].legacy) {
        ContainerStepBare(n, cs[0], migrate, cs[k + 1].legacy);
      }
      RunContainersQuiet(next, cs[1..], migrate, q);
    }
  }

  /** Reviving keeps every leaf and leaves exactly bare containers in the queue. */
  lemma {:induction false} ReviveQuiet(n: Node, cs: seq<Move>, migrate: bool, q: Path)
    requires Unique(n) && forall k | 0 <= k < |cs| :: cs[k].legacy != []
    ensures var (r, queued) := ReviveContainers(n, cs, migrate);
      && Unique(r)
      && ((forall k | 0 <= k < |cs| :: !(q <= cs[k].legacy)) ==> Get(r, q) == Get(n, q))
      && (Bare(n, q) ==> Bare(r, q))
      && (forall m | m in queued :: Bare(r, m.legacy))
    decreases |cs|
  {
    if cs != [] {
      var p := cs[0].legacy;
      if !Hollow(Get(n, p)) || (!migrate && Get(n, cs[0].current).None?) {
        ReviveQuiet(n, cs[1..], migrate, q);
        assert (forall k | 0 <= k < |cs| :: !(q <= cs[k].legacy)) ==>
          forall k | 0 <= k < |cs[1..]| :: !(q <= cs[1..][k].legacy) by
        {
          assert forall k | 0 <= k < |cs[1..]| :: cs[1..][k] == cs[k + 1];
        }
      } else {
        var next := Set(n, p, EMPTY_MAP);
        SetUnique(n, p, EMPTY_MAP);
        GetSetSame(n, p, EMPTY_MAP);
        ReviveQuiet(next, cs[1..], migrate, q);
        ReviveQuiet(next, cs[1..], migrate, p);
        if Bare(n, q) { SetBare(n, p, q); }
        if forall k | 0 <= k < |cs| :: !(q <= cs[k].legacy) {
          QuietSet(n, p, q);
          assert forall k | 0 <= k < |cs[1..]| :: cs[1..][k] == cs[k + 1];
        }
      }
    }
  }

  // ---- credential families -----------------------------------------------

  lemma FamilyUnique(n: Node, t: Table, f: Family, migrate: bool)
    requires Unique(n) && f.move.legacy != []
    ensures Unique(StepFamily(n, t, f, migrate))
  {
    var keys := Get(n, f.move.legacy);
    DeleteUnique(n, f.move.legacy);
    if keys.Some? {
      GetUnique(n, f.move.legacy);
      GroupLegacyUnique(t.shared, keys.value, f.provider);
      var groups := GroupLegacyKeys(t.shared, keys.value, f.provider);
      SetUnique(n, f.move.current, groups);
      DeleteUnique(Set(n, f.move.current, groups), f.move.legacy);
    }
  }

  lemma FamilyFrame(n: Node, t: Table, f: Family, migrate: bool, q: Path)
    requires Unique(n) && f.move.legacy != [] && !Comparable(f.move.legacy, q) && !Comparable(f.move.current, q)
    ensures Get(StepFamily(n, t, f, migrate), q) == Get(n, q)
  {
    var keys := Get(n, f.move.legacy);
    GetDeleteOther(n, f.move.legacy, q);
    if keys.Some? {
      GetUnique(n, f.move.legacy);
      GroupLegacyUnique(t.shared, keys.value, f.provider);
      var groups := GroupLegacyKeys(t.shared, keys.value, f.provider);
      SetUnique(n, f.move.current, groups);
      GetSetOther(n, f.move.current, groups, q);
      GetDeleteOther(Set(n, f.move.current, groups), f.move.legacy, q);
    }
  }

  /** The v8 place of a family: kept if taken, else the grouped legacy list. */
  function FamilyGroups(n: Node, t: Table, f: Family): Option<Node> {
    if Get(n, f.move.current).Some? then Get(n, f.move.current)
    else if Get(n, f.move.legacy).None? then None
    else Some(GroupLegacyKeys(t.shared, Get(n, f.move.legacy).value, f.provider))
  }

  lemma FamilyMoved(n: Node, t: Table, f: Family, migrate: bool)
    requires Unique(n) && f.move.legacy != [] && !Comparable(f.move.legacy, f.move.current)
    ensures var r := StepFamily(n, t, f, migrate);
      && Get(r, f.move.current) == (if migrate then FamilyGroups(n, t, f) else Get(n, f.move.current))
      && Get(r, f.move.legacy) == if migrate || Get(n, f.move.current).Some? then None else Get(n, f.move.legacy)
  {
    var keys := Get(n, f.move.legacy);
    GetDeleteOther(n, f.move.legacy, f.move.current);
    GetDeleteSame(n, f.move.legacy);
    if keys.Some? {
      GetUnique(n, f.move.legacy);
      GroupLegacyUnique(t.shared, keys.value, f.provider);
      var groups := GroupLegacyKeys(t.shared, keys.value, f.provider);
      var r := Set(n, f.move.current, groups);
      SetUnique(n, f.move.current, groups);
      GetSetSame(n, f.move.current, groups);
      GetDeleteOther(r, f.move.legacy, f.move.current);
      GetDeleteSame(r, f.move.legacy);
    }
  }

  /** Families live beside the leaves, their v8 places below api-keys. */
  ghost predicate FamiliesApart(ms: seq<Move>, fs: seq<Family>) {
    && (forall k | 0 <= k < |fs| :: fs[k].move.legacy != [] && API_KEYS <= fs[k].move.current
          && fs[k].move.current != API_KEYS && !Comparable(fs[k].move.legacy, API_KEYS))
    && (forall i, k | 0 <= i < |ms| && 0 <= k < |fs| ::
          && !Comparable(fs[k].move.legacy, ms[i].legacy) && !Comparable(fs[k].move.legacy, ms[i].current)
          && !Comparable(fs[k].move.current, ms[i].current)
          && (ms[i].legacy != API_KEYS ==> !Comparable(fs[k].move.current, ms[i].legacy)))
    && (forall j, k | 0 <= j < |fs| && 0 <= k < |fs| :: !Comparable(fs[j].move.legacy, fs[k].move.current))
    && (forall j, k | 0 <= j < |fs| && 0 <= k < |fs| && j != k ::
          !Comparable(fs[j].move.legacy, fs[k].move.legacy) && !Comparable(fs[j].move.current, fs[k].move.current))
  }

  /** Creating the v8 api-keys mapping does not bring a legacy client-key list back. */
  lemma FamilyLegacy(n: Node, t: Table, f: Family, migrate: bool)
    requires Unique(n) && f.move.legacy != [] && !Comparable(f.move.legacy, API_KEYS)
    requires API_KEYS <= f.move.current && f.move.current != API_KEYS
    ensures var r := LegacyGet(StepFamily(n, t, f, migrate), API_KEYS);
      if migrate then LegacyGet(n, API_KEYS).None? ==> r.None? else r == LegacyGet(n, API_KEYS)
  {
    var keys := Get(n, f.move.legacy);
    GetDeleteOther(n, f.move.legacy, API_KEYS);
    if keys.Some? {
      GetUnique(n, f.move.legacy);
      GroupLegacyUnique(t.shared, keys.value, f.provider);
      var groups := GroupLegacyKeys(t.shared, keys.value, f.provider);
      SetUnique(n, f.move.current, groups);
      ProperPrefix(API_KEYS, f.move.current);
      GetSetAncestor(n, f.move.current, groups, API_KEYS);
      GetDeleteOther(Set(n, f.move.current, groups), f.move.legacy, API_KEYS);
    }
  }

  lemma FamilyEffective(n: Node, t: Table, ms: seq<Move>, fs: seq<Family>, k: nat, migrate: bool)
    requires Unique(n) && LeavesApart(ms) && FamiliesApart(ms, fs) && k < |fs|
    requires migrate ==> AbsentBefore(n, ms, |ms|)
    ensures var r := StepFamily(n, t, fs[k], migrate);
      && (migrate ==> AbsentBefore(r, ms, |ms|))
      && forall i | 0 <= i < |ms| :: Effective(r, ms, ms[i].current) == Effective(n, ms, ms[i].current)
  {
    var f := fs[k];
    var r := StepFamily(n, t, f, migrate);
    FamilyLegacy(n, t, f, migrate);
    forall i | 0 <= i < |ms|
      ensures Get(r, ms[i].current) == Get(n, ms[i].current)
      ensures LegacyGet(r, ms[i].legacy) == LegacyGet(n, ms[i].legacy)
    {
      FamilyFrame(n, t, f, migrate, ms[i].current);
      if ms[i].legacy != API_KEYS { FamilyFrame(n, t, f, migrate, ms[i].legacy); }
    }
    forall i | 0 <= i < |ms| ensures Effective(r, ms, ms[i].current) == Effective(n, ms, ms[i].current) {
      FirstLegacySame(n, r, ms, ms[i].current);
    }
  }

  /** All families from position k on: settings keep their values, each family lands in its place. */
  lemma {:induction false} RunFamiliesEffective(n: Node, t: Table, ms: seq<Move>, k: nat, migrate: bool)
    requires Unique(n) && LeavesApart(ms) && FamiliesApart(ms, t.families) && k <= |t.families|
    requires migrate ==> AbsentBefore(n, ms, |ms|)
    ensures forall f | f in t.families[k..] :: f.move.legacy != []
    ensures var r := RunFamilies(n, t, t.families[k..], migrate);
      && Unique(r)
      && (migrate ==> AbsentBefore(r, ms, |ms|))
      && (forall i | 0 <= i < |ms| :: Effective(r, ms, ms[i].current) == Effective(n, ms, ms[i].current))
      && (forall j | 0 <= j < k :: Get(r, t.families[j].move.legacy) == Get(n, t.families[j].move.legacy)
            && Get(r, t.families[j].move.current) == Get(n, t.families[j].move.current))
      && (migrate ==> forall j | k <= j < |t.families| :: Get(r, t.families[j].move.legacy).None?)
      && (migrate ==> forall j | k <= j < |t.families| ::
            Get(r, t.families[j].move.current) == FamilyGroups(n, t, t.families[j]))
    decreases |t.families| - k
  {
    var fs := t.families;
    if k < |fs| {
      var next := StepFamily(n, t, fs[k], migrate);
      FamilyUnique(n, t, fs[k], migrate);
      FamilyEffective(n, t, ms, fs, k, migrate);
      FamilyMoved(n, t, fs[k], migrate);
      forall j | 0 <= j < |fs| && j != k
        ensures Get(next, fs[j].move.legacy) == Get(n, fs[j].move.legacy)
        ensures Get(next, fs[j].move.current) == Get(n, fs[j].move.current)
      {
        FamilyFrame(n, t, fs[k], migrate, fs[j].move.legacy);
        FamilyFrame(n, t, fs[k], migrate, fs[j].move.current);
      }
      RunFamiliesEffective(next, t, ms, k + 1, migrate);
      assert fs[k..][0] == fs[k] && fs[k..][1..] == fs[k + 1..];
    }
  }

  // ---- unknown keys ------------------------------------------------------

  /** Every step of the path is known, and what is stored there is not structural. */
  predicate Permitted(path: Path, q: Path, known: map<Path, set<string>>)
    decreases |q|
  {
    path in known ==> q != [] && q[0] in known[path] && Permitted(path + [q[0]], q[1..], known)
  }

  /** Some step of the path is unknown. */
  predicate Forbidden(path: Path, q: Path, known: map<Path, set<string>>)
    decreases |q|
  {
    path in known && q != [] && (q[0] !in known[path] || Forbidden(path + [q[0]], q[1..], known))
  }

  lemma DropLookup(es: seq<Entry>, path: Path, known: map<Path, set<string>>, key: string)
    requires path in known
    ensures Lookup(DropUnknownEntries(es, path, known), key) ==
      if key in known[path] && Lookup(es, key).Some?
      then Some(DropUnknown(Lookup(es, key).value, path + [key], known)) else None
  {
  }

  lemma {:induction false} DropPermitted(n: Node, path: Path, q: Path, known: map<Path, set<string>>)
    requires Permitted(path, q, known)
    ensures Get(DropUnknown(n, path, known), q) == Get(n, q)
    decreases |q|
  {
    if path in known && n.Mapping? {
      DropLookup(n.entries, path, known, q[0]);
      if Child(n, q[0]).Some? { DropPermitted(Child(n, q[0]).value, path + [q[0]], q[1..], known); }
    }
  }

  lemma {:induction false} DropForbidden(n: Node, path: Path, q: Path, known: map<Path, set<string>>)
    requires Forbidden(path, q, known)
    ensures Get(DropUnknown(n, path, known), q).None?
    decreases |q|
  {
    if n.Mapping? {
      DropLookup(n.entries, path, known, q[0]);
      if q[0] in known[path] && Child(n, q[0]).Some? {
        DropForbidden(Child(n, q[0]).value, path + [q[0]], q[1..], known);
      }
    }
  }

  /** Dropping neither creates values nor changes whether one is a mapping. */
  lemma {:induction false} DropKeepsKind(n: Node, path: Path, q: Path, known: map<Path, set<string>>)
    ensures var r := Get(DropUnknown(n, path, known), q);
      r.Some? ==>
        && Get(n, q).Some? && (r.value.Mapping? <==> Get(n, q).value.Mapping?)
        && (!r.value.Mapping? ==> r == Get(n, q))
    decreases |q|
  {
    if q != [] && path in known && n.Mapping? {
      DropLookup(n.entries, path, known, q[0]);
      if q[0] in known[path] && Child(n, q[0]).Some? {
        DropKeepsKind(Child(n, q[0]).value, path + [q[0]], q[1..], known);
      }
    }
  }

  lemma DropUnique(n: Node, path: Path, known: map<Path, set<string>>)
    requires Unique(n)
    ensures Unique(DropUnknown(n, path, known))
  {
    if path in known && n.Mapping? { DropEntriesUnique(n.entries, path, known); }
  }

  lemma DropEntriesUnique(es: seq<Entry>, path: Path, known: map<Path, set<string>>)
    requires path in known && UniqueKeys(es) && forall i | 0 <= i < |es| :: Unique(es[i].value)
    ensures Unique(Mapping(DropUnknownEntries(es, path, known)))
    ensures forall e | e in DropUnknownEntries(es, path, known) :: exists i :: 0 <= i < |es| && es[i].key == e.key
  {
    if es != [] {
      DropEntriesUnique(es[1..], path, known);
      DropUnique(es[0].value, path + [es[0].key], known);
      var rest := DropUnknownEntries(es[1..], path, known);
      forall e | e in rest ensures exists i :: 1 <= i < |es| && es[i].key == e.key {
        var i :| 0 <= i < |es[1..]| && es[1..][i].key == e.key;
        assert es[i + 1].key == e.key;
      }
      forall i | 0 <= i < |rest| ensures rest[i].key != es[0].key { assert rest[i] in rest; }
    }
  }

  lemma DropTwice(n: Node, path: Path, known: map<Path, set<string>>)
    ensures DropUnknown(DropUnknown(n, path, known), path, known) == DropUnknown(n, path, known)
  {
    if path in known && n.Mapping? { DropEntriesTwice(n.entries, path, known); }
  }

  lemma DropEntriesTwice(es: seq<Entry>, path: Path, known: map<Path, set<string>>)
    requires path in known
    ensures DropUnknownEntries(DropUnknownEntries(es, path, known), path, known) == DropUnknownEntries(es, path, known)
  {
    if es != [] {
      DropTwice(es[0].value, path + [es[0].key], known);
      DropEntriesTwice(es[1..], path, known);
    }
  }

  lemma DropPut(es: seq<Entry>, path: Path, known: map<Path, set<string>>, key: string, v: Node)
    requires path in known && key in known[path] && DropUnknown(v, path + [key], known) == v
    requires DropUnknownEntries(es, path, known) == es
    ensures DropUnknownEntries(Put(es, key, v), path, known) == Put(es, key, v)
  {
    if es != [] { DropHead(es, path, known); }
  }

  lemma DropHead(es: seq<Entry>, path: Path, known: map<Path, set<string>>)
    requires path in known && es != [] && DropUnknownEntries(es, path, known) == es
    ensures es[0].key in known[path] && DropUnknown(es[0].value, path + [es[0].key], known) == es[0].value
    ensures DropUnknownEntries(es[1..], path, known) == es[1..]
  {
    DropShortens(es[1..], path, known);
    assert es[0].key in known[path];
    var rest := DropUnknownEntries(es[1..], path, known);
    var head := Entry(es[0].key, DropUnknown(es[0].value, path + [es[0].key], known));
    assert ([head] + rest)[0] == es[0] && ([head] + rest)[1..] == rest;
  }

  lemma DropShortens(es: seq<Entry>, path: Path, known: map<Path, set<string>>)
    requires path in known
    ensures |DropUnknownEntries(es, path, known)| <= |es|
  {
  }
}
