/**
 The Antigravity replay cache on a shared key-value store: many requests, each at its own
 place in a compare-and-swap loop, over values that may expire at any time.

 Models the Home branches of
 CLIProxyAPI/internal/cache/antigravity_reasoning_replay_cache.go.  One event is one call to
 the store, so every interleaving of requests is a list of events; a failed call ends its
 request (Abort).  Values in the store were written by this protocol.
 */
module AntigravityHome {
  import opened Wrappers
  import opened Sequences
  import opened ReplayRegister
  import AntigravityCache

  const ATTEMPTS: nat := 4

  type Id = nat
  type Normalizer = Item -> Option<Item>

  /** A stored value; its generation differs from that of any other value ever marshalled. */
  datatype Value = Value(generation: nat, branch: Branch, items: seq<Item>, deleted: bool)

  /** What a request read: raw is None if it read nothing. */
  datatype Snapshot = Snapshot(raw: Option<Value>, branch: Option<Branch>, items: seq<Item>)

  /** Where a request is; the phase names the store call that comes next. */
  datatype Phase =
    | Idle
    | Reading(key: Key, attempt: nat)
    | Reserving(key: Key, attempt: nat)
    | Holding(snap: Snapshot, owner: Key)
    | Publishing(key: Key, snap: Snapshot, owner: Key, items: seq<Item>, branch: Branch,
                 expected: Option<Value>, attempt: nat)
    | Checking(key: Key, snap: Snapshot, owner: Key, items: seq<Item>, branch: Branch, attempt: nat)
    | Finished(ok: bool)

  /** log holds every value ever written, by generation, and the conversation it was written to. */
  datatype State = State(store: map<Key, Value>, requests: map<Id, Phase>, nextGeneration: nat, nextBranch: Branch,
                         log: map<nat, (Key, Value)>)

  datatype Event =
    | Get(id: Id, key: Key)
    | Share(id: Id, other: Id)
    | Replace(id: Id, key: Key, items: seq<Item>)
    | DeleteIfUnchanged(id: Id, key: Key)
    | Call(id: Id)
    | Abort(id: Id)
    | CacheItems(key: Key, items: seq<Item>)
    | Remove(key: Key)
    | Expire(key: Key)

  function Lookup(s: State, key: Key): Option<Value> {
    if key in s.store then Some(s.store[key]) else None
  }

  /** The items a request may replay from a value. */
  function Replayable(v: Value, norm: Normalizer): seq<Item> {
    var n := AntigravityCache.Normalize(v.items, norm);
    if v.deleted || v.items == [] || n.None? || |n.value| != |v.items| then [] else n.value
  }

  function SnapshotOf(v: Value, norm: Normalizer): Snapshot {
    Snapshot(Some(v), Some(v.branch), Replayable(v, norm))
  }

  const NOTHING := Snapshot(None, None, [])

  function PhaseOf(s: State, id: Id): Phase {
    if id in s.requests then s.requests[id] else Idle
  }

  function Go(s: State, id: Id, p: Phase): State {
    s.(requests := s.requests[id := p])
  }

  /** Writes a new value on the given branch. */
  function Write(s: State, key: Key, branch: Branch, items: seq<Item>, deleted: bool): State {
    var v := Value(s.nextGeneration, branch, items, deleted);
    s.(store := s.store[key := v], nextGeneration := s.nextGeneration + 1,
       nextBranch := if branch < s.nextBranch then s.nextBranch else branch + 1,
       log := s.log[v.generation := (key, v)])
  }

  function Tombstone(s: State, key: Key): State {
    Write(s, key, s.nextBranch, [], true)
  }

  /** Stores a chain unconditionally, on a new branch. */
  function Cache(s: State, key: Key, items: seq<Item>, norm: Normalizer): State {
    var n := AntigravityCache.Normalize(items, norm);
    if key == "" || n.None? then s else Write(s, key, s.nextBranch, n.value, false)
  }

  /** Starts the compare-and-swap loop with the branch the chain continues, or a new one. */
  function StartReplace(s: State, id: Id, key: Key, snap: Snapshot, owner: Key, items: seq<Item>): State {
    if snap.branch.Some? && snap.items <= items then
      Go(s, id, Publishing(key, snap, owner, items, snap.branch.value, snap.raw, 0))
    else
      Go(s.(nextBranch := s.nextBranch + 1), id, Publishing(key, snap, owner, items, s.nextBranch, snap.raw, 0))
  }

  /** After a lost swap: may the chain still follow what is there now? */
  predicate MayFollow(v: Value, snap: Snapshot, items: seq<Item>, norm: Normalizer) {
    var n := AntigravityCache.Normalize(v.items, norm);
    !v.deleted && snap.branch == Some(v.branch) && n.Some? && |n.value| == |v.items| && n.value <= items
  }

  function Proceed(s: State, id: Id, norm: Normalizer): State {
    match PhaseOf(s, id)
    case Reading(key, attempt) =>
      (match Lookup(s, key)
       case Some(v) => Go(s, id, Holding(SnapshotOf(v, norm), key))
       case None => Go(s, id, Reserving(key, attempt)))
    case Reserving(key, attempt) =>
      if Lookup(s, key).None? then
        var t := Tombstone(s, key);
        Go(t, id, Holding(SnapshotOf(t.store[key], norm), key))
      else if attempt + 1 < ATTEMPTS then Go(s, id, Reading(key, attempt + 1))
      else Go(s, id, Holding(NOTHING, key))
    case Publishing(key, snap, owner, items, branch, expected, attempt) =>
      if Lookup(s, key) == expected then Go(Write(s, key, branch, items, false), id, Finished(true))
      else Go(s, id, Checking(key, snap, owner, items, branch, attempt))
    case Checking(key, snap, owner, items, branch, attempt) =>
      if key in s.store && MayFollow(s.store[key], snap, items, norm) && attempt + 1 < ATTEMPTS then
        Go(s, id, Publishing(key, snap, owner, items, branch, Some(s.store[key]), attempt + 1))
      else Go(s, id, Finished(false))
    case _ => s
  }

  function Next(s: State, e: Event, norm: Normalizer): State {
    match e
    case Get(id, key) => if key == "" then s else Go(s, id, Reading(key, 0))
    case Share(id, other) => if PhaseOf(s, id).Holding? then Go(s, other, PhaseOf(s, id)) else s
    case Replace(id, key, items) =>
      var p, n := PhaseOf(s, id), AntigravityCache.Normalize(items, norm);
      if key == "" || n.None? then s
      else if p.Holding? then StartReplace(s, id, key, p.snap, p.owner, n.value)
      else if p.Idle? then Cache(s, key, n.value, norm)
      else s
    case DeleteIfUnchanged(id, key) =>
      var p := PhaseOf(s, id);
      if key == "" then s
      else if p.Idle? then Tombstone(s, key)
      else if !p.Holding? then s
      else if Lookup(s, key) == p.snap.raw then Go(Tombstone(s, key), id, Finished(true))
      else Go(s, id, Finished(false))
    case Call(id) => Proceed(s, id, norm)
    case Abort(id) => Go(s, id, Finished(false))
    case CacheItems(key, items) => Cache(s, key, items, norm)
    case Remove(key) => if key == "" then s else Tombstone(s, key)
    case Expire(key) => s.(store := s.store - {key})
  }

  const INITIAL := State(map[], map[], 0, 0, map[])

  // ---- the invariant ------------------------------------------------------------

  /** Normalising is deterministic and idempotent. */
  ghost predicate Idempotent(norm: Normalizer) {
    forall i | norm(i).Some? :: norm(norm(i).value) == norm(i)
  }

  ghost predicate WellFormed(v: Value, norm: Normalizer) {
    if v.deleted then v.items == [] else AntigravityCache.Normalize(v.items, norm) == Some(v.items)
  }

  /** Two writes on one branch serve one conversation, and the later extends the earlier. */
  ghost predicate SameBranch(log: map<nat, (Key, Value)>, p: nat, q: nat)
    requires p in log && q in log
  {
    log[p].0 == log[q].0 && log[p].1.items <= log[q].1.items && (log[q].1.deleted ==> p == q)
  }

  ghost predicate Logged(s: State, g: nat, norm: Normalizer)
    requires g in s.log
  {
    && g < s.nextGeneration && s.log[g].1.generation == g && s.log[g].1.branch < s.nextBranch
    && WellFormed(s.log[g].1, norm)
  }

  ghost predicate LogOk(s: State, norm: Normalizer) {
    && (forall g {:trigger Logged(s, g, norm)} | g in s.log :: Logged(s, g, norm))
    && (forall p, q {:trigger SameBranch(s.log, p, q)} |
          p in s.log && q in s.log && p <= q && s.log[p].1.branch == s.log[q].1.branch :: SameBranch(s.log, p, q))
  }

  /** A stored value is the last written on its branch. */
  ghost predicate Stored(s: State, key: Key)
    requires key in s.store
  {
    var v := s.store[key];
    && v.generation in s.log && s.log[v.generation] == (key, v)
    && forall g | g in s.log && s.log[g].1.branch == v.branch :: g <= v.generation
  }

  /** A snapshot shows a value that was written to its conversation once. */
  ghost predicate Taken(s: State, snap: Snapshot, owner: Key) {
    if snap.raw.None? then snap == NOTHING
    else
      var v := snap.raw.value;
      && v.generation in s.log && s.log[v.generation] == (owner, v)
      && snap.branch == Some(v.branch) && snap.items == v.items
  }

  /** Nothing was ever written on the branch. */
  ghost predicate Private(s: State, branch: Branch) {
    forall g | g in s.log :: s.log[g].1.branch != branch
  }

  function BranchOf(p: Phase): Option<Branch> {
    if p.Publishing? || p.Checking? then Some(p.branch) else None
  }

  /** The request continues the branch it read, or has a private one because it may not. */
  ghost predicate Aims(s: State, snap: Snapshot, items: seq<Item>, branch: Branch) {
    && branch < s.nextBranch
    && ((snap.branch == Some(branch) && snap.items <= items)
        || (Private(s, branch) && (snap.branch.None? || !(snap.items <= items))))
  }

  ghost predicate PhaseOk(s: State, p: Phase, norm: Normalizer) {
    match p
    case Holding(snap, owner) => Taken(s, snap, owner)
    case Publishing(_, snap, owner, items, branch, expected, _) =>
      && Taken(s, snap, owner) && Aims(s, snap, items, branch)
      && AntigravityCache.Normalize(items, norm) == Some(items)
      && (expected == snap.raw ||
          (expected.Some? && !expected.value.deleted && snap.branch == Some(expected.value.branch) &&
           snap.branch == Some(branch) && snap.items <= expected.value.items <= items))
    case Checking(_, snap, owner, items, branch, _) =>
      && Taken(s, snap, owner) && Aims(s, snap, items, branch)
      && AntigravityCache.Normalize(items, norm) == Some(items)
    case _ => true
  }

  /** Private branches are private to one request. */
  ghost predicate Apart(s: State, i: Id, j: Id)
    requires i in s.requests && j in s.requests
  {
    i != j && BranchOf(s.requests[i]).Some? && BranchOf(s.requests[i]) == BranchOf(s.requests[j]) ==>
      !Private(s, BranchOf(s.requests[i]).value)
  }

  ghost predicate Inv(s: State, norm: Normalizer) {
    && LogOk(s, norm)
    && (forall k {:trigger Stored(s, k)} | k in s.store :: Stored(s, k))
    && (forall i {:trigger s.requests[i]} | i in s.requests :: PhaseOk(s, s.requests[i], norm))
    && (forall i, j {:trigger Apart(s, i, j)} | i in s.requests && j in s.requests :: Apart(s, i, j))
  }

  // ---- normalising twice ------------------------------------------------------------

  lemma {:induction false} AcceptedTwice(items: seq<Item>, norm: Normalizer)
    requires Idempotent(norm)
    ensures var kept := AntigravityCache.Accepted(items, norm);
      AntigravityCache.Accepted(kept, norm) == kept && |kept| <= |items|
  {
    if items != [] {
      AcceptedTwice(items[1..], norm);
      var rest := AntigravityCache.Accepted(items[1..], norm);
      var first := norm(items[0]);
      if first.Some? {
        var kept := [first.value] + rest;
        assert kept[0] == first.value && kept[1..] == rest;
      } else {
        assert [] + rest == rest;
      }
    }
  }

  /** A normalised chain is its own normal form. */
  lemma NormalizeTwice(items: seq<Item>, norm: Normalizer)
    requires Idempotent(norm) && AntigravityCache.Normalize(items, norm).Some?
    ensures var n := AntigravityCache.Normalize(items, norm).value;
      AntigravityCache.Normalize(n, norm) == Some(n)
  {
    AcceptedTwice(items, norm);
  }

  // ---- every write is a step of the register ---------------------------------------

  ghost function Abs(s: State): Register {
    Register(map k | k in s.store :: Version(s.store[k].branch, s.store[k].items, !s.store[k].deleted),
             set g | g in s.log :: s.log[g].1.branch)
  }

  lemma NewGeneration(s: State, norm: Normalizer)
    requires LogOk(s, norm)
    ensures s.nextGeneration !in s.log
  {
    forall g | g in s.log ensures g < s.nextGeneration { assert Logged(s, g, norm); }
  }

  /** Values on the same branch belong to the same conversation. */
  lemma BranchOwner(s: State, norm: Normalizer, j: Key, k: Key)
    requires Inv(s, norm) && j in s.store && k in s.store && s.store[j].branch == s.store[k].branch
    ensures j == k
  {
    assert Stored(s, j) && Stored(s, k);
    var p, q := s.store[j].generation, s.store[k].generation;
    if p <= q { assert SameBranch(s.log, p, q); }
    if q <= p { assert SameBranch(s.log, q, p); }
  }

  lemma AbsSound(s: State, norm: Normalizer)
    requires Inv(s, norm)
    ensures Sound(Abs(s))
  {
    forall k | k in s.store ensures s.store[k].branch in Abs(s).used { assert Stored(s, k); }
    forall j, k | j in s.store && k in s.store && j != k ensures s.store[j].branch != s.store[k].branch {
      if s.store[j].branch == s.store[k].branch { BranchOwner(s, norm, j, k); }
    }
  }

  /** Where a write may go: a branch without writes, or that of the live value it continues. */
  ghost predicate MayWrite(s: State, key: Key, branch: Branch, items: seq<Item>, deleted: bool, norm: Normalizer) {
    && WellFormed(Value(0, branch, items, deleted), norm)
    && ((Private(s, branch) && branch <= s.nextBranch)
        || (key in s.store && s.store[key].branch == branch && s.store[key].items <= items && !deleted))
  }

  lemma WriteKeepsLog(s: State, key: Key, branch: Branch, items: seq<Item>, deleted: bool, norm: Normalizer)
    requires Inv(s, norm) && MayWrite(s, key, branch, items, deleted, norm)
    ensures LogOk(Write(s, key, branch, items, deleted), norm)
  {
    var t := Write(s, key, branch, items, deleted);
    if key in s.store { assert Stored(s, key); }
    forall g | g in t.log ensures Logged(t, g, norm) {
      if g in s.log { assert Logged(s, g, norm); }
      if g == s.nextGeneration && key in s.store { assert Logged(s, s.store[key].generation, norm); }
    }
    forall p, q | p in t.log && q in t.log && p <= q && t.log[p].1.branch == t.log[q].1.branch
      ensures SameBranch(t.log, p, q)
    {
      if p in s.log { assert Logged(s, p, norm); }
      if q in s.log { assert Logged(s, q, norm); }
      if q < s.nextGeneration {
        assert SameBranch(s.log, p, q);
      } else if p < s.nextGeneration {
        assert SameBranch(s.log, p, s.store[key].generation);
        PrefixTransitive(s.log[p].1.items, s.store[key].items, items);
      }
    }
  }

  lemma WriteKeepsStore(s: State, key: Key, branch: Branch, items: seq<Item>, deleted: bool, norm: Normalizer, k: Key)
    requires Inv(s, norm) && MayWrite(s, key, branch, items, deleted, norm)
    requires k in Write(s, key, branch, items, deleted).store
    ensures Stored(Write(s, key, branch, items, deleted), k)
  {
    var t := Write(s, key, branch, items, deleted);
    if k == key {
      forall g | g in t.log ensures g <= s.nextGeneration {
        if g in s.log { assert Logged(s, g, norm); }
      }
    } else {
      assert Stored(s, k) && Logged(s, s.store[k].generation, norm);
      AbsSound(s, norm);
      if key in s.store { assert Abs(s).held[key].branch != Abs(s).held[k].branch; }
    }
  }

  lemma WriteKeepsPhase(s: State, key: Key, branch: Branch, items: seq<Item>, deleted: bool, norm: Normalizer, p: Phase)
    requires Inv(s, norm) && PhaseOk(s, p, norm)
    requires BranchOf(p) == Some(branch) ==> !Private(s, branch)
    ensures PhaseOk(Write(s, key, branch, items, deleted), p, norm)
  {
    var t := Write(s, key, branch, items, deleted);
    NewGeneration(s, norm);
    assert forall g | g in s.log :: g in t.log && t.log[g] == s.log[g];
  }

  /** A permitted write keeps the invariant and is one step of the register. */
  lemma WriteRefines(s: State, key: Key, branch: Branch, items: seq<Item>, deleted: bool, norm: Normalizer,
                     requests: map<Id, Phase>)
    requires Inv(s, norm) && MayWrite(s, key, branch, items, deleted, norm)
    requires forall i | i in requests ::
      || (i in s.requests && requests[i] == s.requests[i] && (BranchOf(requests[i]) == Some(branch) ==> !Private(s, branch)))
      || (PhaseOk(Write(s, key, branch, items, deleted), requests[i], norm) && BranchOf(requests[i]).None?)
    ensures var t := Write(s, key, branch, items, deleted).(requests := requests); Inv(t, norm) && Step(Abs(s), Abs(t))
  {
    var w := Write(s, key, branch, items, deleted);
    var t := w.(requests := requests);
    WriteKeepsLog(s, key, branch, items, deleted, norm);
    assert LogOk(t, norm) by {
      forall g | g in t.log ensures Logged(t, g, norm) { assert Logged(w, g, norm); }
      forall p, q | p in t.log && q in t.log && p <= q && t.log[p].1.branch == t.log[q].1.branch
        ensures SameBranch(t.log, p, q) { assert SameBranch(w.log, p, q); }
    }
    forall k | k in t.store ensures Stored(t, k) { WriteKeepsStore(s, key, branch, items, deleted, norm, k); }
    forall i | i in requests ensures PhaseOk(t, requests[i], norm) {
      if !(PhaseOk(w, requests[i], norm) && BranchOf(requests[i]).None?) {
        WriteKeepsPhase(s, key, branch, items, deleted, norm, requests[i]);
      }
      assert PhaseOk(w, requests[i], norm);
    }
    NewGeneration(s, norm);
    forall i, j | i in requests && j in requests ensures Apart(t, i, j) {
      if i in s.requests && j in s.requests { assert Apart(s, i, j); }
    }
    AbsSound(t, norm);
    StepOfWrite(s, t, key);
  }

  lemma StepOfWrite(s: State, t: State, key: Key)
    requires Sound(Abs(t))
    requires s.log.Keys <= t.log.Keys && forall g | g in s.log :: t.log[g] == s.log[g]
    requires key in t.store && forall k | k in t.store && k != key :: k in s.store && t.store[k] == s.store[k]
    requires KeyStep(Abs(s), Abs(t), key)
    ensures Step(Abs(s), Abs(t))
  {
    forall b | b in Abs(s).used ensures b in Abs(t).used {
      var g :| g in s.log && s.log[g].1.branch == b;
      assert g in t.log && t.log[g].1.branch == b;
    }
    forall k ensures KeyStep(Abs(s), Abs(t), k) {}
  }

  // ---- every event is a step of the register ------------------------------------------

  /** A request moves on without writing. */
  lemma GoRefines(s: State, id: Id, p: Phase, norm: Normalizer)
    requires Inv(s, norm) && PhaseOk(s, p, norm)
    requires forall j | j in s.requests && j != id && BranchOf(p).Some? && BranchOf(s.requests[j]) == BranchOf(p) ::
      !Private(s, BranchOf(p).value)
    ensures Inv(Go(s, id, p), norm) && Step(Abs(s), Abs(Go(s, id, p)))
  {
    var t := Go(s, id, p);
    forall g | g in t.log ensures Logged(t, g, norm) { assert Logged(s, g, norm); }
    forall q, r | q in t.log && r in t.log && q <= r && t.log[q].1.branch == t.log[r].1.branch
      ensures SameBranch(t.log, q, r) { assert SameBranch(s.log, q, r); }
    forall k | k in t.store ensures Stored(t, k) { assert Stored(s, k); }
    forall i, j | i in t.requests && j in t.requests ensures Apart(t, i, j) {
      if i in s.requests && j in s.requests { assert Apart(s, i, j); }
    }
    NothingHappens(s, norm);
    assert Abs(s) == Abs(t);
  }

  /** A branch is handed out, which changes nothing by itself. */
  lemma HandOut(s: State, norm: Normalizer)
    requires Inv(s, norm)
    ensures var t := s.(nextBranch := s.nextBranch + 1); Inv(t, norm) && Abs(s) == Abs(t)
    ensures Private(s, s.nextBranch) && forall j | j in s.requests :: BranchOf(s.requests[j]) != Some(s.nextBranch)
  {
    var t := s.(nextBranch := s.nextBranch + 1);
    forall g | g in s.log ensures Logged(t, g, norm) && s.log[g].1.branch != s.nextBranch { assert Logged(s, g, norm); }
    forall k | k in t.store ensures Stored(t, k) { assert Stored(s, k); }
    forall i, j | i in t.requests && j in t.requests ensures Apart(t, i, j) { assert Apart(s, i, j); }
    forall j | j in s.requests ensures BranchOf(s.requests[j]) != Some(s.nextBranch) {
      if BranchOf(s.requests[j]).Some? { BranchesHandedOut(s, j, norm); }
    }
  }

  lemma NothingHappens(s: State, norm: Normalizer)
    requires Inv(s, norm)
    ensures Step(Abs(s), Abs(s))
  {
    AbsSound(s, norm);
    StepReflexive(Abs(s));
  }

  /** A snapshot of a value shows its items, because what is stored is normalised. */
  lemma SnapshotTaken(s: State, key: Key, norm: Normalizer)
    requires Inv(s, norm) && key in s.store
    ensures Taken(s, SnapshotOf(s.store[key], norm), key)
  {
    assert Stored(s, key) && Logged(s, s.store[key].generation, norm);
  }

  /** Whoever read the branch now stored read this conversation, and it has only grown. */
  lemma BranchFollowed(s: State, snap: Snapshot, owner: Key, key: Key, norm: Normalizer)
    requires Inv(s, norm) && Taken(s, snap, owner) && key in s.store && snap.branch == Some(s.store[key].branch)
    ensures owner == key && snap.items <= s.store[key].items
  {
    assert Stored(s, key);
    assert SameBranch(s.log, snap.raw.value.generation, s.store[key].generation);
  }

  lemma BranchesHandedOut(s: State, i: Id, norm: Normalizer)
    requires Inv(s, norm) && i in s.requests && BranchOf(s.requests[i]).Some?
    ensures BranchOf(s.requests[i]).value < s.nextBranch
  {
    assert PhaseOk(s, s.requests[i], norm);
  }

  /** A write on a branch nobody else aims at, while one request moves on. */
  lemma WriteAndGo(s: State, key: Key, branch: Branch, items: seq<Item>, deleted: bool, id: Id, p: Phase,
                   norm: Normalizer)
    requires Inv(s, norm) && MayWrite(s, key, branch, items, deleted, norm)
    requires BranchOf(p).None? && PhaseOk(Write(s, key, branch, items, deleted), p, norm)
    requires forall j | j in s.requests && j != id && BranchOf(s.requests[j]) == Some(branch) :: !Private(s, branch)
    ensures var t := Go(Write(s, key, branch, items, deleted), id, p); Inv(t, norm) && Step(Abs(s), Abs(t))
  {
    WriteRefines(s, key, branch, items, deleted, norm, s.requests[id := p]);
  }

  /** A write on a new branch. */
  lemma FreshWrite(s: State, key: Key, items: seq<Item>, deleted: bool, norm: Normalizer)
    requires Inv(s, norm) && WellFormed(Value(0, s.nextBranch, items, deleted), norm)
    ensures MayWrite(s, key, s.nextBranch, items, deleted, norm)
    ensures var t := Write(s, key, s.nextBranch, items, deleted); Inv(t, norm) && Step(Abs(s), Abs(t))
    ensures forall j | j in s.requests :: BranchOf(s.requests[j]) != Some(s.nextBranch)
  {
    HandOut(s, norm);
    WriteRefines(s, key, s.nextBranch, items, deleted, norm, s.requests);
    var t := Write(s, key, s.nextBranch, items, deleted);
    assert t.(requests := s.requests) == t;
  }

  /** A fenced miss. */
  lemma ReserveRefines(s: State, id: Id, key: Key, norm: Normalizer)
    requires Inv(s, norm)
    ensures var t := Tombstone(s, key); var u := Go(t, id, Holding(SnapshotOf(t.store[key], norm), key));
      Inv(u, norm) && Step(Abs(s), Abs(u))
  {
    FreshWrite(s, key, [], true, norm);
    var t := Tombstone(s, key);
    SnapshotTaken(t, key, norm);
    WriteAndGo(s, key, s.nextBranch, [], true, id, Holding(SnapshotOf(t.store[key], norm), key), norm);
  }

  lemma StartRefines(s: State, id: Id, key: Key, snap: Snapshot, owner: Key, items: seq<Item>, norm: Normalizer)
    requires Inv(s, norm) && Taken(s, snap, owner) && AntigravityCache.Normalize(items, norm) == Some(items)
    ensures var t := StartReplace(s, id, key, snap, owner, items); Inv(t, norm) && Step(Abs(s), Abs(t))
  {
    if snap.branch.Some? && snap.items <= items {
      assert Logged(s, snap.raw.value.generation, norm);
      GoRefines(s, id, Publishing(key, snap, owner, items, snap.branch.value, snap.raw, 0), norm);
    } else {
      HandOut(s, norm);
      var t := s.(nextBranch := s.nextBranch + 1);
      GoRefines(t, id, Publishing(key, snap, owner, items, s.nextBranch, snap.raw, 0), norm);
    }
  }

  /**
     A swap that succeeds replaces exactly the value the request read, or continues a live value
     of that branch; it never touches another conversation.
   */
  lemma SwapAuthorised(s: State, id: Id, norm: Normalizer)
    requires Inv(s, norm) && id in s.requests && s.requests[id].Publishing?
    requires Lookup(s, s.requests[id].key) == s.requests[id].expected && s.requests[id].snap.raw.Some?
    ensures var p := s.requests[id]; var v := s.store[p.key];
      && p.key in s.store && p.owner == p.key
      && (v == p.snap.raw.value ||
          (!v.deleted && v.branch == p.branch == p.snap.raw.value.branch && p.snap.items <= v.items <= p.items))
  {
    var p := s.requests[id];
    assert PhaseOk(s, p, norm) && Stored(s, p.key);
    if p.expected != p.snap.raw { BranchFollowed(s, p.snap, p.owner, p.key, norm); }
  }

  lemma SwapRefines(s: State, id: Id, norm: Normalizer)
    requires Inv(s, norm) && id in s.requests && s.requests[id].Publishing?
    requires Lookup(s, s.requests[id].key) == s.requests[id].expected
    ensures var t := Proceed(s, id, norm); Inv(t, norm) && Step(Abs(s), Abs(t))
  {
    var p := s.requests[id];
    assert PhaseOk(s, p, norm);
    forall j | j in s.requests && j != id && BranchOf(s.requests[j]) == Some(p.branch) ensures !Private(s, p.branch) {
      assert Apart(s, id, j);
    }
    WriteAndGo(s, p.key, p.branch, p.items, false, id, Finished(true), norm);
  }

  /** A request that may follow continues the branch it read, not one of its own. */
  lemma MayFollowAims(s: State, p: Phase, norm: Normalizer)
    requires Inv(s, norm) && p.Checking? && PhaseOk(s, p, norm)
    requires p.key in s.store && MayFollow(s.store[p.key], p.snap, p.items, norm)
    ensures p.snap.branch == Some(p.branch)
    ensures PhaseOk(s, Publishing(p.key, p.snap, p.owner, p.items, p.branch, Some(s.store[p.key]), p.attempt + 1), norm)
  {
    var v := s.store[p.key];
    BranchFollowed(s, p.snap, p.owner, p.key, norm);
    assert Stored(s, p.key) && Logged(s, v.generation, norm);
    PrefixTransitive(p.snap.items, v.items, p.items);
  }

  lemma FollowRefines(s: State, id: Id, norm: Normalizer)
    requires Inv(s, norm) && id in s.requests && s.requests[id].Checking?
    requires var p := s.requests[id]; p.key in s.store && MayFollow(s.store[p.key], p.snap, p.items, norm)
    ensures var p := s.requests[id];
      var t := Go(s, id, Publishing(p.key, p.snap, p.owner, p.items, p.branch, Some(s.store[p.key]), p.attempt + 1));
      Inv(t, norm) && Step(Abs(s), Abs(t))
  {
    var p := s.requests[id];
    assert PhaseOk(s, p, norm);
    MayFollowAims(s, p, norm);
    assert !Private(s, p.branch) by { assert s.log[p.snap.raw.value.generation].1.branch == p.branch; }
    GoRefines(s, id, Publishing(p.key, p.snap, p.owner, p.items, p.branch, Some(s.store[p.key]), p.attempt + 1), norm);
  }

  lemma CheckRefines(s: State, id: Id, norm: Normalizer)
    requires Inv(s, norm) && id in s.requests && s.requests[id].Checking?
    ensures var t := Proceed(s, id, norm); Inv(t, norm) && Step(Abs(s), Abs(t))
  {
    var p := s.requests[id];
    if p.key in s.store && MayFollow(s.store[p.key], p.snap, p.items, norm) && p.attempt + 1 < ATTEMPTS {
      FollowRefines(s, id, norm);
    } else {
      GoRefines(s, id, Finished(false), norm);
    }
  }

  lemma ProceedRefines(s: State, id: Id, norm: Normalizer)
    requires Inv(s, norm)
    ensures var t := Proceed(s, id, norm); Inv(t, norm) && Step(Abs(s), Abs(t))
  {
    var p := PhaseOf(s, id);
    if p.Reading? {
      if p.key in s.store {
        SnapshotTaken(s, p.key, norm);
        GoRefines(s, id, Holding(SnapshotOf(s.store[p.key], norm), p.key), norm);
      } else {
        GoRefines(s, id, Reserving(p.key, p.attempt), norm);
      }
    } else if p.Reserving? {
      if p.key !in s.store { ReserveRefines(s, id, p.key, norm); }
      else if p.attempt + 1 < ATTEMPTS { GoRefines(s, id, Reading(p.key, p.attempt + 1), norm); }
      else { GoRefines(s, id, Holding(NOTHING, p.key), norm); }
    } else if p.Publishing? {
      if Lookup(s, p.key) == p.expected { SwapRefines(s, id, norm); }
      else { SwapLost(s, id, norm); }
    } else if p.Checking? {
      CheckRefines(s, id, norm);
    } else {
      AbsSound(s, norm);
      StepReflexive(Abs(s));
    }
  }

  lemma SwapLost(s: State, id: Id, norm: Normalizer)
    requires Inv(s, norm) && id in s.requests && s.requests[id].Publishing?
    requires Lookup(s, s.requests[id].key) != s.requests[id].expected
    ensures var t := Proceed(s, id, norm); Inv(t, norm) && Step(Abs(s), Abs(t))
  {
    var p := s.requests[id];
    assert PhaseOk(s, p, norm);
    forall j | j in s.requests && j != id && BranchOf(s.requests[j]) == Some(p.branch) ensures !Private(s, p.branch) {
      assert Apart(s, id, j);
    }
    GoRefines(s, id, Checking(p.key, p.snap, p.owner, p.items, p.branch, p.attempt), norm);
  }

  lemma ExpireRefines(s: State, key: Key, norm: Normalizer)
    requires Inv(s, norm)
    ensures var t := s.(store := s.store - {key}); Inv(t, norm) && Step(Abs(s), Abs(t))
  {
    var t := s.(store := s.store - {key});
    forall g | g in t.log ensures Logged(t, g, norm) { assert Logged(s, g, norm); }
    forall k | k in t.store ensures Stored(t, k) { assert Stored(s, k); }
    forall i, j | i in t.requests && j in t.requests ensures Apart(t, i, j) { assert Apart(s, i, j); }
    forall i | i in t.requests ensures PhaseOk(t, t.requests[i], norm) { assert PhaseOk(s, s.requests[i], norm); }
    AbsSound(t, norm);
    assert Abs(s).used == Abs(t).used;
    forall k ensures KeyStep(Abs(s), Abs(t), k) {}
  }

  lemma CacheRefines(s: State, key: Key, items: seq<Item>, norm: Normalizer)
    requires Inv(s, norm) && Idempotent(norm)
    ensures var t := Cache(s, key, items, norm); Inv(t, norm) && Step(Abs(s), Abs(t))
  {
    var n := AntigravityCache.Normalize(items, norm);
    if key != "" && n.Some? {
      NormalizeTwice(items, norm);
      FreshWrite(s, key, n.value, false, norm);
    } else {
      AbsSound(s, norm);
      StepReflexive(Abs(s));
    }
  }

  lemma HoldingTaken(s: State, id: Id, norm: Normalizer)
    requires Inv(s, norm) && PhaseOf(s, id).Holding?
    ensures Taken(s, PhaseOf(s, id).snap, PhaseOf(s, id).owner) && PhaseOk(s, PhaseOf(s, id), norm)
  {
    assert PhaseOk(s, s.requests[id], norm);
  }

  lemma ReplaceRefines(s: State, id: Id, key: Key, items: seq<Item>, norm: Normalizer)
    requires Inv(s, norm) && Idempotent(norm)
    ensures var t := Next(s, Replace(id, key, items), norm); Inv(t, norm) && Step(Abs(s), Abs(t))
  {
    NothingHappens(s, norm);
    var p, n := PhaseOf(s, id), AntigravityCache.Normalize(items, norm);
    if n.Some? {
      NormalizeTwice(items, norm);
      CacheRefines(s, key, n.value, norm);
      if p.Holding? {
        HoldingTaken(s, id, norm);
        StartRefines(s, id, key, p.snap, p.owner, n.value, norm);
      }
    }
  }

  lemma DeleteRefines(s: State, id: Id, key: Key, norm: Normalizer)
    requires Inv(s, norm)
    ensures var t := Next(s, DeleteIfUnchanged(id, key), norm); Inv(t, norm) && Step(Abs(s), Abs(t))
  {
    var p := PhaseOf(s, id);
    if key == "" || (!p.Idle? && !p.Holding?) {
      NothingHappens(s, norm);
    } else if p.Idle? {
      FreshWrite(s, key, [], true, norm);
    } else if Lookup(s, key) == p.snap.raw {
      ClearAndGo(s, key, id, norm);
    } else {
      GoRefines(s, id, Finished(false), norm);
    }
  }

  lemma ClearAndGo(s: State, key: Key, id: Id, norm: Normalizer)
    requires Inv(s, norm)
    ensures var t := Go(Tombstone(s, key), id, Finished(true)); Inv(t, norm) && Step(Abs(s), Abs(t))
  {
    FreshWrite(s, key, [], true, norm);
    WriteAndGo(s, key, s.nextBranch, [], true, id, Finished(true), norm);
  }

  lemma ShareRefines(s: State, id: Id, other: Id, norm: Normalizer)
    requires Inv(s, norm)
    ensures var t := Next(s, Share(id, other), norm); Inv(t, norm) && Step(Abs(s), Abs(t))
  {
    if PhaseOf(s, id).Holding? {
      HoldingTaken(s, id, norm);
      GoRefines(s, other, PhaseOf(s, id), norm);
    } else {
      NothingHappens(s, norm);
    }
  }

  lemma StoreEventRefines(s: State, e: Event, norm: Normalizer)
    requires Inv(s, norm) && Idempotent(norm) && (e.CacheItems? || e.Remove? || e.Expire?)
    ensures var t := Next(s, e, norm); Inv(t, norm) && Step(Abs(s), Abs(t))
  {
    match e
    case CacheItems(key, items) => CacheRefines(s, key, items, norm);
    case Remove(key) => if key == "" { NothingHappens(s, norm); } else { FreshWrite(s, key, [], true, norm); }
    case Expire(key) => ExpireRefines(s, key, norm);
  }

  /** Main result: every event, in any state that can arise, is a step of the register. */
  lemma NextRefines(s: State, e: Event, norm: Normalizer)
    requires Inv(s, norm) && Idempotent(norm)
    ensures var t := Next(s, e, norm); Inv(t, norm) && Step(Abs(s), Abs(t))
  {
    match e
    case Get(id, key) =>
      if key == "" { NothingHappens(s, norm); } else { GoRefines(s, id, Reading(key, 0), norm); }
    case Share(id, other) => ShareRefines(s, id, other, norm);
    case Replace(id, key, items) => ReplaceRefines(s, id, key, items, norm);
    case DeleteIfUnchanged(id, key) => DeleteRefines(s, id, key, norm);
    case Call(id) => ProceedRefines(s, id, norm);
    case Abort(id) => GoRefines(s, id, Finished(false), norm);
    case _ => StoreEventRefines(s, e, norm);
  }

  /** A conditional delete clears only the very value that was read, and only of its conversation. */
  lemma DeleteOnlyWhatWasRead(s: State, id: Id, key: Key, norm: Normalizer)
    requires Inv(s, norm) && id in s.requests && s.requests[id].Holding? && s.requests[id].snap.raw.Some? && key != ""
    ensures var v := s.requests[id].snap.raw.value; var t := Next(s, DeleteIfUnchanged(id, key), norm);
      if key in s.store && s.store[key] == v then
        s.requests[id].owner == key && t.store == s.store[key := t.store[key]] && t.store[key].deleted
      else t.store == s.store
  {
    assert PhaseOk(s, s.requests[id], norm);
    if key in s.store { assert Stored(s, key); }
  }

  // ---- runs ---------------------------------------------------------------------------

  function After(events: seq<Event>, norm: Normalizer): State {
    if events == [] then INITIAL
    else Next(After(events[..|events| - 1], norm), events[|events| - 1], norm)
  }

  lemma {:induction false} Reachable(events: seq<Event>, norm: Normalizer)
    requires Idempotent(norm)
    ensures Inv(After(events, norm), norm)
  {
    if events != [] {
      Reachable(events[..|events| - 1], norm);
      NextRefines(After(events[..|events| - 1], norm), events[|events| - 1], norm);
    }
  }

  ghost function Trace(events: seq<Event>, norm: Normalizer): (r: seq<Register>)
    ensures |r| == |events| + 1
    ensures forall i | 0 <= i <= |events| :: r[i] == Abs(After(events[..i], norm))
  {
    seq(|events| + 1, i requires 0 <= i <= |events| => Abs(After(events[..i], norm)))
  }

  lemma TraceIsRun(events: seq<Event>, norm: Normalizer)
    requires Idempotent(norm)
    ensures Run(Trace(events, norm))
  {
    var run := Trace(events, norm);
    AbsSound(INITIAL, norm);
    forall i | 0 <= i < |run| - 1 ensures Step(run[i], run[i + 1]) {
      var now, next := events[..i], events[..i + 1];
      assert next[..|next| - 1] == now && next[i] == events[i];
      Reachable(now, norm);
      NextRefines(After(now, norm), events[i], norm);
    }
  }

  /**
     Main result: whatever requests do and however calls interleave, if a conversation is stored
     on the same branch at two times, the earlier items are a prefix of the later.
   */
  lemma StoredChain(events: seq<Event>, i: nat, j: nat, key: Key, norm: Normalizer)
    requires Idempotent(norm) && i <= j <= |events|
    requires key in After(events[..i], norm).store && key in After(events[..j], norm).store
    requires After(events[..i], norm).store[key].branch == After(events[..j], norm).store[key].branch
    ensures After(events[..i], norm).store[key].items <= After(events[..j], norm).store[key].items
    ensures forall m | i <= m <= j :: key in After(events[..m], norm).store
  {
    TraceIsRun(events, norm);
    var run, b := Trace(events, norm), After(events[..i], norm).store[key].branch;
    BranchChain(run, i, j, key, b);
    forall m | i <= m <= j ensures key in After(events[..m], norm).store { assert On(run[m], key, b); }
  }
}
