/**
 The in-process Antigravity replay cache: snapshots, conditional replacement and deletion,
 tombstones for absent conversations, expiry and batch eviction.

 Models CLIProxyAPI/internal/cache/antigravity_reasoning_replay_cache.go in local mode.  Every
 method is what happens under the mutex; a random branch is an id not used before.
 */
module AntigravityCache {
  import opened Wrappers
  import opened Sequences
  import opened ReplayRegister
  import Eviction

  type Time = nat

  const TTL: Time := 3_600_000_000_000
  const MAX_ENTRIES: nat := 10240
  const EVICT_BATCH: nat := 128
  const MAX_ITEMS: nat := 4096
  const MAX_BYTES: nat := 16 * 1024 * 1024

  datatype Entry = Entry(items: seq<Item>, timestamp: Time, revision: nat, branch: Branch, deleted: bool)

  /** What a request remembers of the state it read; branch None is the empty branch name. */
  datatype Snapshot = Snapshot(
    loaded: bool, found: bool, revision: nat, branch: Option<Branch>, items: seq<Item>, epoch: nat)

  /** One write to one conversation. */
  datatype Write = Write(key: Key, branch: Branch, items: seq<Item>, deleted: bool)

  /** The items the per-item normaliser accepts, in order. */
  function Accepted(items: seq<Item>, norm: Item -> Option<Item>): seq<Item> {
    if items == [] then []
    else (match norm(items[0]) case Some(i) => [i] case None => []) + Accepted(items[1..], norm)
  }

  /** None for a chain that is too long, too big or empty. */
  function Normalize(items: seq<Item>, norm: Item -> Option<Item>): Option<seq<Item>> {
    var kept := Accepted(items, norm);
    if |items| > MAX_ITEMS || Bytes(kept) > MAX_BYTES || kept == [] then None else Some(kept)
  }

  // ---- the state as a value ---------------------------------------------------

  type Entries = map<Key, Entry>
  type Log = map<nat, Write>

  /** Writes of one branch serve one key and only append; tombstones only start branches. */
  ghost predicate LogValid(log: Log, revisions: nat, unused: Branch) {
    && (forall r | r in log :: 0 < r <= revisions && log[r].branch < unused)
    && (forall q, r {:trigger SameBranch(log, q, r)} |
          q in log && r in log && q <= r && log[q].branch == log[r].branch :: SameBranch(log, q, r))
  }

  ghost predicate SameBranch(log: Log, q: nat, r: nat)
    requires q in log && r in log
  {
    log[q].key == log[r].key && log[q].items <= log[r].items && (log[r].deleted ==> q == r)
  }

  /** The entry of a key is its latest write, and the latest of its branch. */
  ghost predicate Current(entries: Entries, log: Log, k: Key)
    requires k in entries
  {
    var e := entries[k];
    && e.revision in log && log[e.revision] == Write(k, e.branch, e.items, e.deleted)
    && (e.deleted ==> e.items == [])
    && Latest(log, e.branch, e.revision)
  }

  ghost predicate Latest(log: Log, branch: Branch, revision: nat) {
    forall r | r in log && log[r].branch == branch :: r <= revision
  }

  ghost predicate Consistent(entries: Entries, log: Log, revisions: nat, unused: Branch) {
    && LogValid(log, revisions, unused)
    && forall k {:trigger Current(entries, log, k)} | k in entries :: Current(entries, log, k)
  }

  /** The register a state implements. */
  ghost function AbsOf(entries: Entries, unused: Branch): Register {
    Register(map k | k in entries :: Version(entries[k].branch, entries[k].items, !entries[k].deleted), Below(unused))
  }

  ghost function Below(unused: Branch): (r: set<Branch>)
    ensures forall b: Branch :: b in r <==> b < unused
  {
    if unused == 0 then {} else Below(unused - 1) + {unused - 1}
  }

  /** A snapshot some request took of a key, however long ago, or the empty one of a failed read. */
  ghost predicate Taken(log: Log, key: Key, s: Snapshot) {
    && s.loaded
    && (if s.found then
          && s.revision in log && log[s.revision].key == key && s.branch == Some(log[s.revision].branch)
          && s.items == log[s.revision].items
        else s.branch == None && s.items == [])
  }

  /** Writes are only added to the log. */
  ghost predicate Grows(log: Log, later: Log) {
    log.Keys <= later.Keys && forall r | r in log :: later[r] == log[r]
  }

  /** Snapshots stay what they are while the cache goes on. */
  lemma TakenForever(log: Log, later: Log, key: Key, s: Snapshot)
    requires Taken(log, key, s) && Grows(log, later)
    ensures Taken(later, key, s)
  {
  }

  /** Entries on the same branch belong to the same conversation. */
  lemma BranchOwner(entries: Entries, log: Log, revisions: nat, unused: Branch, j: Key, k: Key)
    requires Consistent(entries, log, revisions, unused) && j in entries && k in entries
    requires entries[j].branch == entries[k].branch
    ensures j == k
  {
    assert Current(entries, log, j) && Current(entries, log, k);
    var p, q := entries[j].revision, entries[k].revision;
    if p <= q { assert SameBranch(log, p, q); }
    if q <= p { assert SameBranch(log, q, p); }
  }

  /** No two conversations share a branch. */
  lemma AbsSound(entries: Entries, log: Log, revisions: nat, unused: Branch)
    requires Consistent(entries, log, revisions, unused)
    ensures Sound(AbsOf(entries, unused))
  {
    forall k | k in entries ensures entries[k].branch < unused { assert Current(entries, log, k); }
    forall j, k | j in entries && k in entries && j != k ensures entries[j].branch != entries[k].branch {
      if entries[j].branch == entries[k].branch { BranchOwner(entries, log, revisions, unused, j, k); }
    }
  }

  /** Whether a write may go to a branch: a new one, or that of the live entry it continues. */
  ghost predicate MayWrite(entries: Entries, unused: Branch, key: Key, w: Write) {
    && w.key == key && (w.deleted ==> w.items == [])
    && (w.branch == unused
        || (key in entries && entries[key].branch == w.branch && entries[key].items <= w.items && !w.deleted))
  }

  lemma WriteKeepsLog(entries: Entries, log: Log, revisions: nat, unused: Branch, key: Key, w: Write)
    requires Consistent(entries, log, revisions, unused) && MayWrite(entries, unused, key, w)
    ensures LogValid(log[revisions + 1 := w], revisions + 1, if w.branch == unused then unused + 1 else unused)
  {
    if key in entries { assert Current(entries, log, key); }
    var after := log[revisions + 1 := w];
    forall q, r | q in after && r in after && q <= r && after[q].branch == after[r].branch
      ensures SameBranch(after, q, r)
    {
      if r <= revisions {
        assert SameBranch(log, q, r);
      } else if q <= revisions {
        assert q <= entries[key].revision && SameBranch(log, q, entries[key].revision);
        PrefixTransitive(log[q].items, entries[key].items, w.items);
      }
    }
  }

  /** A write keeps the state consistent and is one step of the register. */
  lemma WriteRefines(entries: Entries, log: Log, revisions: nat, unused: Branch, key: Key, w: Write, now: Time,
                     after: Entries, logAfter: Log, next: Branch)
    requires Consistent(entries, log, revisions, unused) && MayWrite(entries, unused, key, w)
    requires next == if w.branch == unused then unused + 1 else unused
    requires after == entries[key := Entry(w.items, now, revisions + 1, w.branch, w.deleted)]
    requires logAfter == log[revisions + 1 := w]
    ensures Consistent(after, logAfter, revisions + 1, next)
    ensures Step(AbsOf(entries, unused), AbsOf(after, next))
  {
    WriteKeepsLog(entries, log, revisions, unused, key, w);
    forall k | k in after ensures Current(after, logAfter, k) {
      if k != key {
        assert Current(entries, log, k);
        if key in entries && w.branch == entries[k].branch { BranchOwner(entries, log, revisions, unused, k, key); }
      }
    }
    AbsSound(after, logAfter, revisions + 1, next);
    forall k ensures KeyStep(AbsOf(entries, unused), AbsOf(after, next), k) {}
  }

  /** Forgetting entries, or touching their timestamps, is a step too. */
  lemma ForgetRefines(entries: Entries, after: Entries, log: Log, revisions: nat, unused: Branch)
    requires Consistent(entries, log, revisions, unused) && after.Keys <= entries.Keys
    requires forall k | k in after :: after[k] == entries[k].(timestamp := after[k].timestamp)
    ensures Consistent(after, log, revisions, unused)
    ensures Step(AbsOf(entries, unused), AbsOf(after, unused))
  {
    forall k | k in after ensures Current(after, log, k) { assert Current(entries, log, k); }
    AbsSound(after, log, revisions, unused);
    forall k ensures KeyStep(AbsOf(entries, unused), AbsOf(after, unused), k) {}
  }

  predicate Expired(e: Entry, now: Time) {
    now > e.timestamp + TTL
  }

  predicate Hit(entries: Entries, key: Key, now: Time) {
    key in entries && !Expired(entries[key], now)
  }

  // ---- when a snapshot authorises a write ------------------------------------------

  /** The state is exactly the one the request read. */
  predicate Unchanged(entries: Entries, epoch: nat, key: Key, s: Snapshot) {
    if key in entries then s.found && entries[key].revision == s.revision else !s.found && s.epoch == epoch
  }

  /** The state moved on along the branch the request read, and the new items include it. */
  predicate Descendant(entries: Entries, key: Key, s: Snapshot, items: seq<Item>) {
    key in entries && !entries[key].deleted && s.branch == Some(entries[key].branch) && entries[key].items <= items
  }

  /** The branch a published chain goes on; None asks for a new one. */
  function NextBranch(exact: bool, s: Snapshot, items: seq<Item>): Option<Branch> {
    if s.branch.None? || (exact && !(s.items <= items)) then None else s.branch
  }

  /** Whoever is authorised read this very conversation, and it is still there. */
  lemma AuthorisedByOwner(entries: Entries, log: Log, revisions: nat, unused: Branch, epoch: nat,
                          key: Key, owner: Key, s: Snapshot, items: seq<Item>)
    requires Consistent(entries, log, revisions, unused) && Taken(log, owner, s) && s.found
    requires Unchanged(entries, epoch, key, s) || Descendant(entries, key, s, items)
    ensures owner == key && key in entries && s.branch == Some(entries[key].branch)
    ensures Unchanged(entries, epoch, key, s) ==>
      log[s.revision] == Write(key, entries[key].branch, entries[key].items, entries[key].deleted)
    ensures s.items <= entries[key].items
  {
    assert Current(entries, log, key);
    if !Unchanged(entries, epoch, key, s) {
      assert s.revision <= entries[key].revision;
      assert SameBranch(log, s.revision, entries[key].revision);
    }
  }

  /** What a successful conditional write rests on: the write it read, or a live continuation of it. */
  ghost predicate Authorised(entries: Entries, log: Log, key: Key, owner: Key, s: Snapshot, kept: seq<Item>) {
    && owner == key && key in entries
    && ((entries[key].revision == s.revision && s.revision in log &&
           log[s.revision] == Write(key, entries[key].branch, entries[key].items, entries[key].deleted))
        || (!entries[key].deleted && s.items <= entries[key].items <= kept))
  }

  // ---- the cache -----------------------------------------------------------------

  class Cache {
    const norm: Item -> Option<Item>
    var entries: Entries
    var nextRevision: nat
    var epoch: nat
    var unused: Branch      // source of branch names
    ghost var Log: Log      // every write by its revision

    ghost predicate Valid()
      reads this
    {
      Consistent(entries, Log, nextRevision, unused) && |entries| <= MAX_ENTRIES
    }

    ghost function Abs(): Register
      reads this
    {
      AbsOf(entries, unused)
    }

    constructor (norm: Item -> Option<Item>)
      ensures Valid() && entries == map[] && this.norm == norm
    {
      this.norm := norm;
      entries, nextRevision, epoch, unused, Log := map[], 0, 0, 0, map[];
    }

    /** Writes an entry: on the given branch, which it must continue, or on a new one. */
    method Put(key: Key, items: seq<Item>, now: Time, branch: Option<Branch>, deleted: bool)
      requires Consistent(entries, Log, nextRevision, unused) && (deleted ==> items == [] && branch == None)
      requires branch.Some? ==> key in entries && entries[key].branch == branch.value && entries[key].items <= items
      modifies this
      ensures Consistent(entries, Log, nextRevision, unused) && Step(old(Abs()), Abs())
      ensures nextRevision == old(nextRevision) + 1 && epoch == old(epoch)
      ensures var b := branch.GetOr(old(unused));
        && entries == old(entries)[key := Entry(items, now, nextRevision, b, deleted)]
        && Log == old(Log)[nextRevision := Write(key, b, items, deleted)]
      ensures Grows(old(Log), Log)
    {
      var b := branch.GetOr(unused);
      ghost var w := Write(key, b, items, deleted);
      if branch.Some? { assert Current(entries, Log, key); }
      assert branch.None? <==> b == unused;
      if branch.None? { unused := unused + 1; }
      nextRevision := nextRevision + 1;
      Log := Log[nextRevision := w];
      entries := entries[key := Entry(items, now, nextRevision, b, deleted)];
      WriteRefines(old(entries), old(Log), old(nextRevision), old(unused), key, w, now, entries, Log, unused);
    }

    /** Forgets the oldest entries. */
    method EvictOldest(count: nat)
      requires Consistent(entries, Log, nextRevision, unused)
      modifies this`entries, this`epoch
      ensures Consistent(entries, Log, nextRevision, unused) && Step(old(Abs()), Abs())
      ensures |entries| == (if count <= old(|entries|) then old(|entries|) - count else 0)
      ensures epoch == old(epoch) + (old(|entries|) - |entries|)
      ensures entries.Keys <= old(entries).Keys && forall k | k in entries :: entries[k] == old(entries)[k]
      ensures forall k, l | k in old(entries) && k !in entries && l in entries ::
        old(entries)[k].timestamp <= entries[l].timestamp
    {
      var stamp := map k | k in entries :: entries[k].timestamp;
      assert stamp.Keys == entries.Keys;
      assert |stamp| == |stamp.Keys| == |entries|;
      var victims := Eviction.Victims(stamp, count);
      DeleteAll(victims);
      Eviction.Remaining(old(entries), victims);
      ForgetRefines(old(entries), entries, Log, nextRevision, unused);
    }

    /** Deletes the given entries one by one. */
    method DeleteAll(victims: seq<Key>)
      modifies this`entries, this`epoch
      ensures entries == old(entries) - Eviction.KeysOf(victims) && epoch == old(epoch) + |victims|
    {
      for i := 0 to |victims|
        invariant entries == old(entries) - Eviction.KeysOf(victims[..i]) && epoch == old(epoch) + i
      {
        assert victims[..i + 1] == victims[..i] + [victims[i]];
        epoch := epoch + 1;
        entries := entries - {victims[i]};
      }
      assert victims[..|victims|] == victims;
    }

    /** Makes room once the bound is passed. */
    method Trim()
      requires Consistent(entries, Log, nextRevision, unused) && |entries| <= MAX_ENTRIES + 1
      modifies this`entries, this`epoch
      ensures Valid() && Step(old(Abs()), Abs()) && epoch >= old(epoch)
    {
      AbsSound(entries, Log, nextRevision, unused);
      StepReflexive(Abs());
      if |entries| > MAX_ENTRIES { EvictOldest(EVICT_BATCH); }
    }

    /** Writes and makes room. */
    method Store(key: Key, items: seq<Item>, now: Time, branch: Option<Branch>, deleted: bool)
      requires Valid() && (deleted ==> items == [] && branch == None)
      requires branch.Some? ==> key in entries && entries[key].branch == branch.value && entries[key].items <= items
      modifies this
      ensures Valid() && Step(old(Abs()), Abs()) && Grows(old(Log), Log)
      ensures nextRevision == old(nextRevision) + 1
      ensures Log == old(Log)[nextRevision := Write(key, branch.GetOr(old(unused)), items, deleted)]
    {
      AbsSound(entries, Log, nextRevision, unused);
      Put(key, items, now, branch, deleted);
      SizeAfterPut(old(entries), key, entries[key]);
      ghost var mid := Abs();
      Trim();
      StepTransitive(old(Abs()), mid, Abs());
    }

    /** Stores a chain unconditionally, on a new branch. */
    method CacheItems(key: Key, items: seq<Item>, now: Time) returns (ok: bool)
      requires Valid()
      modifies this
      ensures Valid() && Step(old(Abs()), Abs()) && Grows(old(Log), Log)
      ensures ok <==> key != "" && Normalize(items, norm).Some?
      ensures Log == if ok then old(Log)[nextRevision := Write(key, old(unused), Normalize(items, norm).value, false)]
                     else old(Log)
      ensures nextRevision == old(nextRevision) + if ok then 1 else 0
    {
      AbsSound(entries, Log, nextRevision, unused);
      StepReflexive(Abs());
      var normalized := Normalize(items, norm);
      if key == "" || normalized.None? { return false; }
      Store(key, normalized.value, now, None, false);
      return true;
    }

    /** Fences a miss with a tombstone of this key alone. */
    method ReserveAbsent(key: Key, now: Time) returns (s: Snapshot)
      requires Valid() && key !in entries
      modifies this
      ensures Valid() && Step(old(Abs()), Abs()) && Grows(old(Log), Log)
      ensures Log == old(Log)[nextRevision := Write(key, old(unused), [], true)] && nextRevision == old(nextRevision) + 1
      ensures Taken(Log, key, s) && s.found && s.items == [] && key in entries && entries[key].deleted
      ensures s.revision == nextRevision == entries[key].revision
    {
      AbsSound(entries, Log, nextRevision, unused);
      StepReflexive(Abs());
      if |entries| >= MAX_ENTRIES { EvictOldest(EVICT_BATCH); }
      ghost var mid := Abs();
      Put(key, [], now, None, true);
      SizeAfterPut(entries - {key}, key, entries[key]);
      StepTransitive(old(Abs()), mid, Abs());
      s := Snapshot(true, true, nextRevision, Some(entries[key].branch), [], epoch);
    }

    /** Reads a conversation for a request; a miss leaves a tombstone behind. */
    method Get(key: Key, now: Time) returns (found: Option<seq<Item>>, s: Snapshot)
      requires Valid()
      modifies this
      ensures Valid() && Step(old(Abs()), Abs()) && Grows(old(Log), Log)
      ensures key == "" ==> found.None? && !s.loaded && entries == old(entries)
      ensures key != "" ==> Taken(Log, key, s) && s.found && key in entries && entries[key].revision == s.revision
      ensures found.Some? <==> key != "" && Hit(old(entries), key, now) && !old(entries)[key].deleted &&
                               old(entries)[key].items != []
      ensures found.Some? ==> found.value == s.items == old(entries)[key].items
      ensures key != "" && Hit(old(entries), key, now) ==>
        Log == old(Log) && entries == old(entries)[key := old(entries)[key].(timestamp := now)]
    {
      AbsSound(entries, Log, nextRevision, unused);
      StepReflexive(Abs());
      if key == "" { return None, Snapshot(false, false, 0, None, [], 0); }
      if key !in entries {
        s := ReserveAbsent(key, now);
        return None, s;
      }
      var e := entries[key];
      assert Current(entries, Log, key);
      if Expired(e, now) {
        Forget(key);
        ghost var mid := Abs();
        s := ReserveAbsent(key, now);
        StepTransitive(old(Abs()), mid, Abs());
        return None, s;
      }
      entries := entries[key := e.(timestamp := now)];
      assert entries.Keys == old(entries).Keys && |entries| == |entries.Keys| && |old(entries)| == |old(entries).Keys|;
      ForgetRefines(old(entries), entries, Log, nextRevision, unused);
      s := Snapshot(true, true, e.revision, Some(e.branch), e.items, epoch);
      found := if e.deleted || e.items == [] then None else Some(e.items);
    }

    /** Drops one entry, as expiry does. */
    method Forget(key: Key)
      requires Valid() && key in entries
      modifies this`entries, this`epoch
      ensures Valid() && Step(old(Abs()), Abs())
      ensures entries == old(entries) - {key} && epoch == old(epoch) + 1
    {
      epoch := epoch + 1;
      entries := entries - {key};
      assert entries.Keys == old(entries).Keys - {key};
      assert |entries| == |entries.Keys| && |old(entries)| == |old(entries).Keys|;
      ForgetRefines(old(entries), entries, Log, nextRevision, unused);
    }

    /**
     Publishes a chain if the state a request read still stands or has only been continued
     towards this chain.  The snapshot may be as old as you like, and owner is the conversation
     it was taken of, which the code does not know.
     */
    method Publish(key: Key, s: Snapshot, kept: seq<Item>, now: Time, ghost owner: Key) returns (ok: bool)
      requires Valid() && Taken(Log, owner, s)
      modifies this
      ensures Valid() && Step(old(Abs()), Abs()) && Grows(old(Log), Log)
      ensures ok <==> old(Unchanged(entries, epoch, key, s)) || Descendant(old(entries), key, s, kept)
      ensures !ok ==> entries == old(entries) && Log == old(Log)
      ensures ok ==> Log == old(Log)[nextRevision :=
        Write(key, NextBranch(old(Unchanged(entries, epoch, key, s)), s, kept).GetOr(old(unused)), kept, false)]
      ensures ok && s.found ==> Authorised(old(entries), old(Log), key, owner, s, kept)
    {
      AbsSound(entries, Log, nextRevision, unused);
      StepReflexive(Abs());
      var matches := Unchanged(entries, epoch, key, s);
      if !matches && !Descendant(entries, key, s, kept) { return false; }
      if s.found { AuthorisedByOwner(entries, Log, nextRevision, unused, epoch, key, owner, s, kept); }
      var branch := NextBranch(matches, s, kept);
      Store(key, kept, now, branch, false);
      return true;
    }

    /** Publishes the chain a request ended with; without a snapshot it is just stored. */
    method ReplaceIfUnchanged(key: Key, s: Snapshot, items: seq<Item>, now: Time, ghost owner: Key)
        returns (r: Result<bool, string>)
      requires Valid() && (s.loaded ==> Taken(Log, owner, s))
      modifies this
      ensures Valid() && Step(old(Abs()), Abs()) && Grows(old(Log), Log)
      ensures r.Err? <==> key != "" && Normalize(items, norm).None?
      ensures key == "" ==> r == Ok(false)
      ensures r.Err? || r == Ok(false) ==> Log == old(Log)
      ensures s.loaded && key != "" && r.Ok? ==>
        (r.value <==> old(Unchanged(entries, epoch, key, s)) ||
                      Descendant(old(entries), key, s, Normalize(items, norm).value))
      ensures r == Ok(true) && s.loaded ==> var kept := Normalize(items, norm).value;
        Log == old(Log)[nextRevision :=
          Write(key, NextBranch(old(Unchanged(entries, epoch, key, s)), s, kept).GetOr(old(unused)), kept, false)]
      ensures r == Ok(true) && s.loaded && s.found ==>
        Authorised(old(entries), old(Log), key, owner, s, Normalize(items, norm).value)
    {
      AbsSound(entries, Log, nextRevision, unused);
      StepReflexive(Abs());
      if key == "" { return Ok(false); }
      var normalized := Normalize(items, norm);
      if normalized.None? { return Err("invalid antigravity reasoning replay items"); }
      var ok;
      if s.loaded {
        ok := Publish(key, s, normalized.value, now, owner);
      } else {
        ok := CacheItems(key, normalized.value, now);
      }
      return Ok(ok);
    }

    /** Clears the state a request read, if it is still exactly that. */
    method DeleteIfUnchanged(key: Key, s: Snapshot, now: Time, ghost owner: Key) returns (ok: bool)
      requires Valid() && (s.loaded ==> Taken(Log, owner, s))
      modifies this
      ensures Valid() && Step(old(Abs()), Abs()) && Grows(old(Log), Log)
      ensures ok <==> key != "" && (s.loaded ==> old(Unchanged(entries, epoch, key, s)))
      ensures !ok ==> entries == old(entries) && Log == old(Log)
      ensures ok ==> Log == old(Log)[nextRevision := Write(key, old(unused), [], true)]
      ensures ok && s.loaded && s.found ==> owner == key && key in old(entries) && old(entries)[key].revision == s.revision
    {
      AbsSound(entries, Log, nextRevision, unused);
      StepReflexive(Abs());
      if key == "" { return false; }
      if !s.loaded {
        DeleteRequired(key, now);
        return true;
      }
      if !Unchanged(entries, epoch, key, s) { return false; }
      if s.found { AuthorisedByOwner(entries, Log, nextRevision, unused, epoch, key, owner, s, []); }
      Store(key, [], now, None, true);
      return true;
    }

    /** Clears a conversation unconditionally. */
    method DeleteRequired(key: Key, now: Time)
      requires Valid()
      modifies this
      ensures Valid() && Step(old(Abs()), Abs()) && Grows(old(Log), Log)
      ensures Log == if key == "" then old(Log) else old(Log)[nextRevision := Write(key, old(unused), [], true)]
    {
      AbsSound(entries, Log, nextRevision, unused);
      StepReflexive(Abs());
      if key != "" { Store(key, [], now, None, true); }
    }

    /** Drops everything; the counters go on. */
    method Clear()
      requires Valid()
      modifies this`entries, this`epoch
      ensures Valid() && Step(old(Abs()), Abs())
      ensures entries == map[] && epoch == old(epoch) + 1
    {
      entries, epoch := map[], epoch + 1;
      ForgetRefines(old(entries), entries, Log, nextRevision, unused);
    }

    /** Drops what expired. */
    method Purge(now: Time)
      requires Valid()
      modifies this`entries, this`epoch
      ensures Valid() && Step(old(Abs()), Abs())
      ensures entries == map k | k in old(entries) && !Expired(old(entries)[k], now) :: old(entries)[k]
      ensures epoch == old(epoch) + (old(|entries|) - |entries|)
    {
      AbsSound(entries, Log, nextRevision, unused);
      StepReflexive(Abs());
      var rest := entries.Keys;
      while rest != {}
        invariant Valid() && rest <= entries.Keys <= old(entries).Keys && Step(old(Abs()), Abs())
        invariant forall k | k in entries :: entries[k] == old(entries)[k]
        invariant forall k | k in old(entries) && k !in rest :: k in entries <==> !Expired(old(entries)[k], now)
        invariant epoch == old(epoch) + (old(|entries|) - |entries|)
        decreases |rest|
      {
        var k :| k in rest;
        rest := rest - {k};
        if Expired(entries[k], now) {
          ghost var mid, before := Abs(), entries;
          Forget(k);
          assert entries.Keys == before.Keys - {k} && |entries| == |entries.Keys| && |before| == |before.Keys|;
          StepTransitive(old(Abs()), mid, Abs());
        }
      }
    }
  }

  lemma SizeAfterPut(entries: Entries, key: Key, e: Entry)
    ensures |entries[key := e]| <= |entries| + 1
  {
    var after := entries[key := e];
    assert after.Keys == entries.Keys + {key};
    assert |after| == |after.Keys| && |entries| == |entries.Keys|;
  }
}
