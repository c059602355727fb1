/**
 Runs of the in-process Antigravity replay cache: any sequence of calls by any number of
 requests, each of which keeps the snapshot it was handed for as long as it likes.
 */
module AntigravityRuns {
  import opened Wrappers
  import opened ReplayRegister
  import opened AntigravityCache

  type Id = nat

  /** A snapshot and the conversation it was taken of. */
  datatype Holding = Holding(owner: Key, snap: Snapshot)

  type Holdings = map<Id, Holding>

  /** One call; a request is named by its id, and so is the snapshot it uses. */
  datatype Call =
    | CacheItems(key: Key, items: seq<Item>, now: Time)
    | Get(id: Id, key: Key, now: Time)
    | Replace(id: Id, key: Key, items: seq<Item>, now: Time)
    | DeleteIfUnchanged(id: Id, key: Key, now: Time)
    | Delete(key: Key, now: Time)
    | Clear
    | Purge(now: Time)

  /** Every snapshot in use shows a write to its conversation. */
  ghost predicate AllTaken(log: Log, held: Holdings) {
    forall i | i in held && held[i].snap.loaded :: Taken(log, held[i].owner, held[i].snap)
  }

  /** However long a request keeps its snapshot, it still shows that write. */
  lemma AllTakenForever(log: Log, later: Log, held: Holdings)
    requires AllTaken(log, held) && Grows(log, later)
    ensures AllTaken(later, held)
  {
    forall i | i in held && held[i].snap.loaded ensures Taken(later, held[i].owner, held[i].snap) {
      TakenForever(log, later, held[i].owner, held[i].snap);
    }
  }

  /** The snapshot a request uses; without one it is the unloaded snapshot. */
  function HeldBy(held: Holdings, id: Id): Holding {
    if id in held then held[id] else Holding("", Snapshot(false, false, 0, None, [], 0))
  }

  method Perform(cache: Cache, call: Call, held: Holdings) returns (next: Holdings)
    requires cache.Valid() && AllTaken(cache.Log, held)
    modifies cache
    ensures cache.Valid() && Step(old(cache.Abs()), cache.Abs()) && AllTaken(cache.Log, next)
    ensures Grows(old(cache.Log), cache.Log)
    ensures if call.Get? then call.id in next && next == held[call.id := next[call.id]] && next[call.id].owner == call.key
      else next == held
  {
    next := held;
    ghost var log := cache.Log;
    match call {
      case CacheItems(key, items, now) => var _ := cache.CacheItems(key, items, now);
      case Get(id, key, now) =>
        var _, s := cache.Get(key, now);
        next := held[id := Holding(key, s)];
      case Replace(id, key, items, now) =>
        var h := HeldBy(held, id);
        var _ := cache.ReplaceIfUnchanged(key, h.snap, items, now, h.owner);
      case DeleteIfUnchanged(id, key, now) =>
        var h := HeldBy(held, id);
        var _ := cache.DeleteIfUnchanged(key, h.snap, now, h.owner);
      case Delete(key, now) => cache.DeleteRequired(key, now);
      case Clear => cache.Clear();
      case Purge(now) => cache.Purge(now);
    }
    AllTakenForever(log, cache.Log, held);
  }

  // ---- all of them ----------------------------------------------------------------

  /** The entries after each call, as the register has them. */
  ghost predicate Recorded(run: seq<Register>, states: seq<Entries>) {
    && |run| == |states|
    && forall i | 0 <= i < |states| :: run[i].held == AbsOf(states[i], 0).held
  }

  /** Entries of one branch only grow, and the branch is not left in between. */
  ghost predicate Chained(states: seq<Entries>, i: nat, j: nat, key: Key)
    requires i <= j < |states|
  {
    key in states[i] && key in states[j] && states[i][key].branch == states[j][key].branch ==>
      && states[i][key].items <= states[j][key].items
      && (forall m | i <= m <= j :: key in states[m] && states[m][key].branch == states[i][key].branch)
  }

  lemma RunChained(run: seq<Register>, states: seq<Entries>, i: nat, j: nat, key: Key)
    requires Run(run) && Recorded(run, states) && i <= j < |states|
    ensures Chained(states, i, j, key)
  {
    if key in states[i] && key in states[j] && states[i][key].branch == states[j][key].branch {
      var b := states[i][key].branch;
      assert On(run[i], key, b) && On(run[j], key, b);
      BranchChain(run, i, j, key, b);
      forall m | i <= m <= j ensures key in states[m] && states[m][key].branch == b {
        assert On(run[m], key, b);
      }
    }
  }

  /**
   Main result: whatever is called in whatever order, with snapshots of any age, entries of one
   conversation on one branch only grow, and a branch once left is never taken up again.
   */
  method Serve(cache: Cache, calls: seq<Call>) returns (ghost states: seq<Entries>)
    requires cache.Valid()
    modifies cache
    ensures cache.Valid() && |states| == |calls| + 1 && states[0] == old(cache.entries) && states[|calls|] == cache.entries
    ensures forall i: nat, j: nat, key | i <= j < |states| :: Chained(states, i, j, key)
  {
    var held: Holdings := map[];
    ghost var run := [cache.Abs()];
    AbsSound(cache.entries, cache.Log, cache.nextRevision, cache.unused);
    states := [cache.entries];
    for n := 0 to |calls|
      invariant cache.Valid() && AllTaken(cache.Log, held)
      invariant |run| == n + 1 && Run(run) && run[n] == cache.Abs()
      invariant |states| == n + 1 && states[0] == old(cache.entries) && states[n] == cache.entries && Recorded(run, states)
    {
      held := Perform(cache, calls[n], held);
      run, states := run + [cache.Abs()], states + [cache.entries];
    }
    forall i: nat, j: nat, key | i <= j < |states| ensures Chained(states, i, j, key) { RunChained(run, states, i, j, key); }
  }
}
