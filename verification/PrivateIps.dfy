/**
 The deprecated switch allow-private-remote-ips, the inverse of disable-private-remote-ips: it is
 resolved before the moves of the layout rewrite are made.

 Models CLIProxyAPI/internal/config/config_v8.go, normalizeV8PrivateIPAlias and its two calls.
 Decoding a node as a bool is a parameter.
 */
module PrivateIps {
  import opened Wrappers
  import opened YamlTree
  import opened LayoutMigration
  import opened MigrationTheorems
  import opened FlattenTheorems
  import opened TidyTheorems

  const ALLOW: Path := ["codex", "live-media-relay", "allow-private-remote-ips"]
  const DISABLE: Path := ["codex", "live-media-relay", "disable-private-remote-ips"]
  const V8_DISABLE: Path := ["oauth", "providers", "codex", "live-media-relay", "disable-private-remote-ips"]

  type Decoder = Node -> Option<bool>

  function Flag(b: bool): Node {
    Scalar("!!bool", if b then "true" else "false")
  }

  /** The document without the deprecated switch, as far as this is its place to resolve it. */
  function ResolveAllow(n: Node, migrate: bool, decode: Decoder): Result<Node, LayoutError> {
    var v := Get(n, ALLOW);
    if v.None? then Ok(n)
    else if Get(n, V8_DISABLE).Some? then Ok(Delete(n, ALLOW))
    else if !migrate || Get(n, DISABLE).Some? then Ok(n)
    else
      match decode(v.value)
      case None => Err(BadAllowFlag)
      case Some(allow) => Ok(Delete(Set(n, DISABLE, Flag(!allow)), ALLOW))
  }

  function FlattenDocument(n: Node, t: Table, decode: Decoder): Result<Node, LayoutError>
    requires t.Paths()
  {
    if !n.Mapping? then Err(NotMapping)
    else if !Unique(n) then Err(DuplicateKeys)
    else
      match ResolveAllow(n, true, decode)
      case Err(e) => Err(e)
      case Ok(m) => Flatten(m, t)
  }

  /** A document the runtime would reject is left alone. */
  function NormalizeDocument(n: Node, t: Table, migrate: bool, decode: Decoder): Result<Node, LayoutError>
    requires t.Paths()
  {
    match FlattenDocument(n, t, decode)
    case Err(e) => Err(e)
    case Ok(_) =>
      match ResolveAllow(n, migrate, decode)
      case Err(e) => Err(e)
      case Ok(m) => Ok(Normalize(m, t, migrate))
  }

  // ---- what the switch means ----------------------------------------------------------

  /** The setting: the v8 spelling, the legacy one, or else the inverse of the deprecated switch. */
  function EffectiveDisable(n: Node, t: Table, decode: Decoder): Option<Node> {
    var v := Effective(n, t.Moves(), V8_DISABLE);
    if v.Some? then v
    else if Get(n, ALLOW).None? || decode(Get(n, ALLOW).value).None? then None
    else Some(Flag(!decode(Get(n, ALLOW).value).value))
  }

  /** The tables move the legacy spelling and nothing near the deprecated one. */
  ghost predicate RelayMoved(t: Table, d: nat) {
    && d < |t.fields| && t.fields[d] == Move(DISABLE, V8_DISABLE)
    && (forall i | 0 <= i < |t.aliases| :: t.aliases[i].current != V8_DISABLE)
    && BesideTables(t, ALLOW)
    && (forall f | f in t.families :: !Comparable(f.move.legacy, ALLOW) && !Comparable(f.move.current, ALLOW))
    && (forall c | c in t.Containers() :: !(ALLOW <= c.legacy) && !(ALLOW <= c.current))
    && exists c :: c in t.Containers() && c.legacy <= ALLOW
  }

  lemma SpellingsApart()
    ensures !Comparable(ALLOW, DISABLE) && !Comparable(ALLOW, V8_DISABLE) && !Comparable(DISABLE, V8_DISABLE)
  {
    assert ALLOW[2] != DISABLE[2] && ALLOW[0] != V8_DISABLE[0] && DISABLE[0] != V8_DISABLE[0];
  }

  lemma ResolveUnique(n: Node, migrate: bool, decode: Decoder)
    requires Unique(n) && ResolveAllow(n, migrate, decode).Ok?
    ensures Unique(ResolveAllow(n, migrate, decode).value)
  {
    var v := Get(n, ALLOW);
    DeleteUnique(n, ALLOW);
    if v.Some? && decode(v.value).Some? {
      SetUnique(n, DISABLE, Flag(!decode(v.value).value));
      DeleteUnique(Set(n, DISABLE, Flag(!decode(v.value).value)), ALLOW);
    }
  }

  /** Resolving the switch touches no path beside the two old spellings. */
  lemma ResolveFrame(n: Node, migrate: bool, decode: Decoder, q: Path)
    requires Unique(n) && ResolveAllow(n, migrate, decode).Ok? && !Comparable(ALLOW, q) && !Comparable(DISABLE, q)
    ensures Get(ResolveAllow(n, migrate, decode).value, q) == Get(n, q)
  {
    var v := Get(n, ALLOW);
    GetDeleteOther(n, ALLOW, q);
    if v.Some? && decode(v.value).Some? {
      var flag := Flag(!decode(v.value).value);
      SetUnique(n, DISABLE, flag);
      GetSetOther(n, DISABLE, flag, q);
      GetDeleteOther(Set(n, DISABLE, flag), ALLOW, q);
    }
  }

  /** What becomes of the old spellings themselves. */
  lemma ResolveEnds(n: Node, migrate: bool, decode: Decoder)
    requires Unique(n) && ResolveAllow(n, migrate, decode).Ok?
    ensures var m := ResolveAllow(n, migrate, decode).value;
      && Get(m, V8_DISABLE) == Get(n, V8_DISABLE)
      && Get(m, ALLOW) == (if Get(n, V8_DISABLE).Some? || (migrate && Get(n, DISABLE).None?) then None else Get(n, ALLOW))
      && Get(m, DISABLE) ==
           if migrate && Get(n, ALLOW).Some? && Get(n, V8_DISABLE).None? && Get(n, DISABLE).None? then
             Some(Flag(!decode(Get(n, ALLOW).value).value))
           else Get(n, DISABLE)
  {
    SpellingsApart();
    var v := Get(n, ALLOW);
    ResolveFrame(n, migrate, decode, V8_DISABLE);
    GetDeleteOther(n, ALLOW, DISABLE);
    GetDeleteSame(n, ALLOW);
    if v.Some? && decode(v.value).Some? {
      var flag := Flag(!decode(v.value).value);
      SetUnique(n, DISABLE, flag);
      GetSetSame(n, DISABLE, flag);
      GetDeleteSame(Set(n, DISABLE, flag), ALLOW);
      GetDeleteOther(Set(n, DISABLE, flag), ALLOW, DISABLE);
    }
  }

  // ---- it means the same afterwards -----------------------------------------------------

  /** Where the move of the legacy spelling stands among all moves. */
  function At(t: Table, d: nat): nat {
    |t.aliases| + d
  }

  lemma RelayMove(t: Table, d: nat)
    requires Separated(t) && RelayMoved(t, d)
    ensures At(t, d) < |t.Moves()| && t.Moves()[At(t, d)] == Move(DISABLE, V8_DISABLE)
    ensures forall j | 0 <= j < |t.Moves()| && j != At(t, d) :: t.Moves()[j].current != V8_DISABLE
  {
    FieldAt(t, d);
    NoOtherMove(t, d);
  }

  lemma NoOtherMove(t: Table, d: nat)
    requires d < |t.fields| && t.fields[d].current == V8_DISABLE
    requires forall i | 0 <= i < |t.aliases| :: t.aliases[i].current != V8_DISABLE
    requires forall j, k | 0 <= j < k < |t.fields| :: t.fields[j].current != t.fields[k].current
    ensures forall j | 0 <= j < |t.Moves()| && j != At(t, d) :: t.Moves()[j].current != V8_DISABLE
  {
    forall j | 0 <= j < |t.Moves()| && j != At(t, d) ensures t.Moves()[j].current != V8_DISABLE {
      if j < |t.aliases| { AliasAt(t, j); } else { FieldAt(t, j - |t.aliases|); }
    }
  }

  /** A setting with one old spelling. */
  lemma OneSpelling(n: Node, ms: seq<Move>, k: nat)
    requires k < |ms| && ms[k].legacy != API_KEYS
    requires forall j | 0 <= j < |ms| && j != k :: ms[j].current != ms[k].current
    ensures Effective(n, ms, ms[k].current) == if Get(n, ms[k].current).Some? then Get(n, ms[k].current) else Get(n, ms[k].legacy)
  {
    OnlyLegacy(n, ms, k);
  }

  lemma DisableSpellings(n: Node, t: Table, d: nat)
    requires Separated(t) && RelayMoved(t, d)
    ensures Effective(n, t.Moves(), V8_DISABLE) == if Get(n, V8_DISABLE).Some? then Get(n, V8_DISABLE) else Get(n, DISABLE)
  {
    RelayMove(t, d);
    assert |DISABLE| != |API_KEYS|;
    OneSpelling(n, t.Moves(), At(t, d));
  }

  lemma LeafBeside(ms: seq<Move>, k: nat, i: nat)
    requires LeavesApart(ms) && k < |ms| && i < |ms| && i != k
    ensures !Comparable(ms[k].legacy, ms[i].legacy) && !Comparable(ms[k].legacy, ms[i].current)
  {
  }

  lemma BesideMoves(t: Table, q: Path, i: nat)
    requires BesideTables(t, q) && i < |t.Moves()|
    ensures !Comparable(q, t.Moves()[i].legacy) && !Comparable(q, t.Moves()[i].current)
  {
    if i < |t.aliases| { assert t.Moves()[i] == t.aliases[i]; } else { assert t.Moves()[i] == t.fields[i - |t.aliases|]; }
  }

  /** The other moves lie beside both old spellings. */
  lemma RelayBeside(t: Table, d: nat, i: nat)
    requires Separated(t) && RelayMoved(t, d) && i < |t.Moves()| && i != At(t, d)
    ensures var m := t.Moves()[i];
      && !Comparable(ALLOW, m.legacy) && !Comparable(DISABLE, m.legacy)
      && !Comparable(ALLOW, m.current) && !Comparable(DISABLE, m.current)
  {
    RelayMove(t, d);
    LeafBeside(t.Moves(), At(t, d), i);
    BesideMoves(t, ALLOW, i);
  }

  /** Two documents that agree on every spelling of a setting. */
  lemma SameSetting(n: Node, m: Node, ms: seq<Move>, c: Path)
    requires Get(m, c) == Get(n, c)
    requires forall i | 0 <= i < |ms| && ms[i].current == c :: Get(m, ms[i].legacy) == Get(n, ms[i].legacy)
    ensures Effective(m, ms, c) == Effective(n, ms, c)
  {
    FirstLegacySame(m, n, ms, c);
  }

  /** Resolving the switch changes no other setting. */
  lemma ResolveKeepsOthers(n: Node, t: Table, d: nat, migrate: bool, decode: Decoder, k: nat)
    requires Separated(t) && RelayMoved(t, d) && Unique(n) && ResolveAllow(n, migrate, decode).Ok?
    requires k < |t.Moves()| && k != At(t, d)
    ensures var m := ResolveAllow(n, migrate, decode).value;
      Effective(m, t.Moves(), t.Moves()[k].current) == Effective(n, t.Moves(), t.Moves()[k].current)
  {
    var ms, m := t.Moves(), ResolveAllow(n, migrate, decode).value;
    RelayMove(t, d);
    RelayBeside(t, d, k);
    ResolveFrame(n, migrate, decode, ms[k].current);
    forall i | 0 <= i < |ms| && ms[i].current == ms[k].current ensures Get(m, ms[i].legacy) == Get(n, ms[i].legacy) {
      RelayBeside(t, d, i);
      ResolveFrame(n, migrate, decode, ms[i].legacy);
    }
    SameSetting(n, m, ms, ms[k].current);
  }

  /** And of the setting it stands for, it makes what it stands for. */
  lemma ResolveKeepsDisable(n: Node, t: Table, d: nat, migrate: bool, decode: Decoder)
    requires Separated(t) && RelayMoved(t, d) && Unique(n) && ResolveAllow(n, migrate, decode).Ok?
    ensures var m := ResolveAllow(n, migrate, decode).value;
      && EffectiveDisable(m, t, decode) == EffectiveDisable(n, t, decode)
      && (migrate ==> Effective(m, t.Moves(), V8_DISABLE) == EffectiveDisable(n, t, decode))
  {
    ResolveEnds(n, migrate, decode);
    DisableSpellings(n, t, d);
    DisableSpellings(ResolveAllow(n, migrate, decode).value, t, d);
  }

  /** Without migrating the rewrite leaves alone what lies beside everything it moves. */
  lemma TidyKeepsAllow(n: Node, t: Table, d: nat)
    requires Separated(t) && RelayMoved(t, d) && Unique(n)
    ensures Get(Normalize(n, t, false), ALLOW) == Get(n, ALLOW)
  {
    var ms := t.Moves();
    ContainersInvisible(n, t, false, ALLOW);
    forall i | 0 <= i < |ms| ensures !Comparable(ms[i].legacy, ALLOW) && !Comparable(ms[i].current, ALLOW) {
      BesideMoves(t, ALLOW, i);
    }
    RunMovesAside(ReviveContainers(n, t.Containers(), false).0, ms, false, ALLOW);
    forall k | 0 <= k < |t.families| ensures !Comparable(t.families[k].move.legacy, ALLOW) {
      assert t.families[k] in t.families;
    }
    GroupingKeepsOther(Moved(n, t, false), t, t.families, ALLOW);
  }

  /** The setting, as the decoder reads it. */
  lemma FlattenReadsDisable(m: Node, t: Table, d: nat)
    requires Separated(t) && RelayMoved(t, d) && Flatten(m, t).Ok?
    ensures Get(Flatten(m, t).value, DISABLE) == Effective(m, t.Moves(), V8_DISABLE)
  {
    FlattenReadsField(m, t, d);
  }

  /**
   Main result: the runtime reads the setting the switch stands for, and the switch itself only
   beside its legacy inverse, which the decoder rejects.
   */
  lemma FlattenResolves(n: Node, t: Table, d: nat, decode: Decoder)
    requires Separated(t) && RelayMoved(t, d) && FlattenDocument(n, t, decode).Ok?
    ensures var r := FlattenDocument(n, t, decode).value;
      && Get(r, DISABLE) == EffectiveDisable(n, t, decode)
      && Get(r, ALLOW) == (if Get(n, V8_DISABLE).None? && Get(n, DISABLE).Some? then Get(n, ALLOW) else None)
  {
    var m := ResolveAllow(n, true, decode).value;
    ResolveEnds(n, true, decode);
    ResolveKeepsDisable(n, t, d, true, decode);
    FlattenReadsDisable(m, t, d);
    FlattenKeepsAllow(m, t, d);
  }

  lemma FlattenReadsField(m: Node, t: Table, k: nat)
    requires Separated(t) && Flatten(m, t).Ok? && k < |t.fields|
    ensures Get(Flatten(m, t).value, t.fields[k].legacy) == Effective(m, t.Moves(), t.fields[k].current)
    ensures At(t, k) < |t.Moves()| && t.Moves()[At(t, k)] == t.fields[k]
  {
    FlattenReadsEffective(m, t);
  }

  /** Every other setting is read as without the switch. */
  lemma FlattenResolvesOthers(n: Node, t: Table, d: nat, decode: Decoder, k: nat)
    requires Separated(t) && RelayMoved(t, d) && FlattenDocument(n, t, decode).Ok? && k < |t.fields| && k != d
    ensures Get(FlattenDocument(n, t, decode).value, t.fields[k].legacy) == Effective(n, t.Moves(), t.fields[k].current)
  {
    var m := ResolveAllow(n, true, decode).value;
    FlattenReadsField(m, t, k);
    ResolveKeepsOthers(n, t, d, true, decode, At(t, k));
  }

  lemma FlattenKeepsAllow(m: Node, t: Table, d: nat)
    requires Separated(t) && RelayMoved(t, d) && Flatten(m, t).Ok?
    ensures Get(Flatten(m, t).value, ALLOW) == Get(m, ALLOW)
  {
    PreparedKeeps(m, t, ALLOW);
    forall k | 0 <= k < |t.families| ensures !Comparable(t.families[k].move.legacy, ALLOW) {
      assert t.families[k] in t.families;
    }
    ExpandFrame(RunBack(Prepared(m, t), t.fields), m, t, t.families, ALLOW);
  }

  lemma MigratedAllow(m: Node, t: Table, d: nat)
    requires Separated(t) && RelayMoved(t, d) && Unique(m)
    ensures Get(Normalize(m, t, true), ALLOW).None?
  {
    var c :| c in t.Containers() && c.legacy <= ALLOW;
    var r := Normalize(m, t, true);
    NormalizeRemovesLegacy(m, t);
    if c.legacy != ALLOW {
      ProperPrefix(c.legacy, ALLOW);
      GetBelowLeaf(r, c.legacy, ALLOW);
    }
  }

  lemma NormalizeKeepsDisable(m: Node, t: Table, d: nat, migrate: bool)
    requires Separated(t) && RelayMoved(t, d) && Unique(m)
    ensures Effective(Normalize(m, t, migrate), t.Moves(), V8_DISABLE) == Effective(m, t.Moves(), V8_DISABLE)
    ensures migrate ==> Get(Normalize(m, t, true), ALLOW).None?
    ensures !migrate ==> Get(Normalize(m, t, false), ALLOW) == Get(m, ALLOW)
  {
    RelayMove(t, d);
    NormalizeKeepsSettings(m, t, migrate);
    if migrate { MigratedAllow(m, t, d); } else { TidyKeepsAllow(m, t, d); }
  }

  /** Once resolved, nothing is left of the switch unless there is a legacy spelling to go by. */
  lemma ResolvedAllow(n: Node, t: Table, d: nat, decode: Decoder)
    requires Separated(t) && RelayMoved(t, d) && Unique(n) && ResolveAllow(n, true, decode).Ok?
    ensures var m := ResolveAllow(n, true, decode).value; Effective(m, t.Moves(), V8_DISABLE).None? ==> Get(m, ALLOW).None?
  {
    ResolveEnds(n, true, decode);
    DisableSpellings(ResolveAllow(n, true, decode).value, t, d);
  }

  /**
   Main result: with the switch resolved first, rewriting a document changes neither the setting
   the switch stands for nor any other one, and migrating removes the switch.
   */
  lemma NormalizeResolves(n: Node, t: Table, d: nat, migrate: bool, decode: Decoder)
    requires Separated(t) && RelayMoved(t, d) && NormalizeDocument(n, t, migrate, decode).Ok?
    ensures var r := NormalizeDocument(n, t, migrate, decode).value;
      && EffectiveDisable(r, t, decode) == EffectiveDisable(n, t, decode)
      && (migrate ==> Get(r, ALLOW).None?)
  {
    var m := ResolveAllow(n, migrate, decode).value;
    ResolveUnique(n, migrate, decode);
    ResolveKeepsDisable(n, t, d, migrate, decode);
    NormalizeKeepsDisable(m, t, d, migrate);
    if migrate { ResolvedAllow(n, t, d, decode); }
    SameDisable(m, Normalize(m, t, migrate), t, decode);
  }

  lemma SameDisable(m: Node, r: Node, t: Table, decode: Decoder)
    requires Effective(r, t.Moves(), V8_DISABLE) == Effective(m, t.Moves(), V8_DISABLE)
    requires Effective(m, t.Moves(), V8_DISABLE).None? ==> Get(r, ALLOW) == Get(m, ALLOW)
    ensures EffectiveDisable(r, t, decode) == EffectiveDisable(m, t, decode)
  {
  }

  lemma NormalizeResolvesOthers(n: Node, t: Table, d: nat, migrate: bool, decode: Decoder, k: nat)
    requires Separated(t) && RelayMoved(t, d) && NormalizeDocument(n, t, migrate, decode).Ok?
    requires k < |t.Moves()| && k != At(t, d)
    ensures Effective(NormalizeDocument(n, t, migrate, decode).value, t.Moves(), t.Moves()[k].current) ==
            Effective(n, t.Moves(), t.Moves()[k].current)
  {
    ResolveUnique(n, migrate, decode);
    NormalizeKeepsSettings(ResolveAllow(n, migrate, decode).value, t, migrate);
    ResolveKeepsOthers(n, t, d, migrate, decode, k);
  }
}
