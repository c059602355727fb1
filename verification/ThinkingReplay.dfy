/**
 The in-process replay caches that count bytes: signed assistant turns of Claude sessions, and
 the single content of Kimi sessions.

 Models CLIProxyAPI/internal/cache/claude_thinking_replay_cache.go and
 CLIProxyAPI/internal/cache/kimi_thinking_replay_cache.go in local mode.  Every method is what
 happens under the mutex; a uuid is a number not used before, and JSON equality of contents is
 a parameter.
 */
module ThinkingReplay {
  import opened Wrappers
  import opened Sequences
  import Eviction

  type Key = string
  type Time = nat
  type Content = string

  const TTL: Time := 3_600_000_000_000
  const MAX_ENTRIES: nat := 10240
  const EVICT_BATCH: nat := 128
  const MAX_BYTES_PER_SESSION: nat := 8 * 1024 * 1024
  const MAX_TURNS_PER_SESSION: nat := 64
  const MAX_TOTAL_BYTES: nat := 256 * 1024 * 1024

  datatype Entry = Entry(contents: seq<Content>, timestamp: Time, generation: nat, deleted: bool)

  datatype Snapshot = Snapshot(loaded: bool, found: bool, generation: nat)

  /** One write to one session. */
  datatype Write = Write(key: Key, contents: seq<Content>, deleted: bool)

  type Entries = map<Key, Entry>

  // ---- the turns of one session -------------------------------------------------------

  predicate Fits(contents: seq<Content>) {
    |contents| <= MAX_TURNS_PER_SESSION && Bytes(contents) <= MAX_BYTES_PER_SESSION
  }

  /** The oldest turns are dropped until the rest fits. */
  function Trimmed(contents: seq<Content>): (r: seq<Content>)
    ensures Fits(r)
  {
    if Fits(contents) then contents else Trimmed(contents[1..])
  }

  predicate Knows(contents: seq<Content>, content: Content, same: (Content, Content) -> bool) {
    exists i | 0 <= i < |contents| :: same(contents[i], content)
  }

  /** A turn is added unless an equal one is there. */
  function WithTurn(contents: seq<Content>, content: Content, same: (Content, Content) -> bool): seq<Content> {
    if Knows(contents, content, same) then contents else Trimmed(contents + [content])
  }

  /** The result is the longest suffix within both limits. */
  lemma {:induction false} TrimmedLongest(contents: seq<Content>)
    ensures var n := |contents| - |Trimmed(contents)|;
      && 0 <= n && Trimmed(contents) == contents[n..] && Fits(contents[n..])
      && forall m | 0 <= m < n :: !Fits(contents[m..])
  {
    if !Fits(contents) {
      TrimmedLongest(contents[1..]);
      var n := |contents| - |Trimmed(contents)|;
      forall m | 0 <= m < n ensures !Fits(contents[m..]) {
        if m > 0 { assert contents[m..] == contents[1..][m - 1..]; }
      }
    }
  }

  /** A turn that fits by itself is the last of what is kept. */
  lemma NewTurnKept(contents: seq<Content>, content: Content, same: (Content, Content) -> bool)
    requires |content| <= MAX_BYTES_PER_SESSION && !Knows(contents, content, same)
    ensures var r := WithTurn(contents, content, same); r != [] && r[|r| - 1] == content
  {
    var all := contents + [content];
    TrimmedLongest(all);
    assert all[|contents|..] == [content] && Bytes([content]) == |content|;
  }

  /** Drops whole turns from the front, as appendClaudeThinkingReplayContent does. */
  method AppendContent(contents: seq<Content>, content: Content, same: (Content, Content) -> bool)
      returns (r: seq<Content>)
    ensures r == WithTurn(contents, content, same)
  {
    for i := 0 to |contents|
      invariant forall j | 0 <= j < i :: !same(contents[j], content)
    {
      if same(contents[i], content) { return contents; }
    }
    r := contents + [content];
    while |r| > MAX_TURNS_PER_SESSION || Bytes(r) > MAX_BYTES_PER_SESSION
      invariant Trimmed(r) == Trimmed(contents + [content])
      decreases |r|
    {
      r := r[1..];
    }
  }

  // ---- the sum over all sessions ----------------------------------------------------------

  /** The bytes all sessions hold together. */
  ghost function Total(entries: Entries): nat {
    if entries == map[] then 0
    else var k :| k in entries; Bytes(entries[k].contents) + Total(entries - {k})
  }

  lemma {:induction false} TotalWithout(entries: Entries, key: Key)
    requires key in entries
    ensures Total(entries) == Bytes(entries[key].contents) + Total(entries - {key})
    decreases |entries|
  {
    var k :| k in entries && Total(entries) == Bytes(entries[k].contents) + Total(entries - {k});
    if k != key {
      TotalWithout(entries - {k}, key);
      TotalWithout(entries - {key}, k);
      assert entries - {k} - {key} == entries - {key} - {k};
    }
  }

  function BytesAt(entries: Entries, key: Key): nat {
    if key in entries then Bytes(entries[key].contents) else 0
  }

  lemma TotalWith(entries: Entries, key: Key, e: Entry)
    ensures Total(entries[key := e]) == Total(entries) - BytesAt(entries, key) + Bytes(e.contents)
  {
    var after := entries[key := e];
    TotalWithout(after, key);
    assert after - {key} == entries - {key};
    if key in entries { TotalWithout(entries, key); } else { assert entries - {key} == entries; }
  }

  predicate Within(entries: Entries, total: int) {
    |entries| <= MAX_ENTRIES && total <= MAX_TOTAL_BYTES
  }

  /** Entries were evicted oldest first, and only while a limit was passed. */
  ghost predicate EvictedFrom(full: Entries, kept: Entries) {
    && kept.Keys <= full.Keys && (forall k | k in kept :: kept[k] == full[k])
    && (forall k, l | k in full && k !in kept && l in kept :: full[k].timestamp <= kept[l].timestamp)
    && (Within(full, Total(full)) ==> kept == full)
    && (kept != full ==> |kept| + EVICT_BATCH <= |full| || kept == map[])
  }

  lemma EvictedTwice(full: Entries, half: Entries, kept: Entries)
    requires EvictedFrom(full, half) && EvictedFrom(half, kept) && !Within(full, Total(full))
    ensures EvictedFrom(full, kept)
  {
    forall k, l | k in full && k !in kept && l in kept ensures full[k].timestamp <= kept[l].timestamp {
      if k in half { assert half[k].timestamp <= kept[l].timestamp; } else { assert full[k].timestamp <= half[l].timestamp; }
    }
  }

  ghost predicate Logged(e: Entry, key: Key, log: map<nat, Write>) {
    e.generation in log && log[e.generation] == Write(key, e.contents, e.deleted)
  }

  /** The state of a key is the write that was read, or as absent as it was. */
  predicate Matches(entries: Entries, key: Key, s: Snapshot) {
    (key in entries <==> s.found) && (key in entries ==> entries[key].generation == s.generation)
  }

  ghost predicate Recorded(entries: Entries, log: map<nat, Write>, next: nat) {
    (forall g | g in log :: g < next) && forall k {:trigger entries[k]} | k in entries :: Logged(entries[k], k, log)
  }

  ghost predicate AllFit(entries: Entries) {
    forall k {:trigger entries[k]} | k in entries :: Fits(entries[k].contents)
  }

  lemma RecordedAfter(entries: Entries, log: map<nat, Write>, next: nat, key: Key, e: Entry)
    requires Recorded(entries, log, next) && e.generation == next
    ensures Recorded(entries[key := e], log[next := Write(key, e.contents, e.deleted)], next + 1)
  {
  }

  predicate Live(entries: Entries, key: Key, now: Time) {
    key in entries && now <= entries[key].timestamp + TTL
  }

  lemma SizeAfterPut(entries: Entries, key: Key, e: Entry)
    ensures |entries[key := e]| == |entries| + if key in entries then 0 else 1
  {
    var after := entries[key := e];
    assert after.Keys == entries.Keys + {key};
    assert |after| == |after.Keys| && |entries| == |entries.Keys|;
  }

  /** A tombstone put back after making room for it still has room. */
  lemma RoomForTombstone(before: Entries, kept: Entries, key: Key, e: Entry)
    requires key !in before && e.contents == [] && EvictedFrom(before[key := e], kept)
    requires Within(before, Total(before)) && Within(kept, Total(kept))
    ensures Within(kept[key := e], Total(kept[key := e]))
  {
    TotalWith(before, key, e);
    TotalWith(kept, key, e);
    SizeAfterPut(before, key, e);
    SizeAfterPut(kept, key, e);
    assert key in kept ==> kept[key] == e;
  }

  // ---- the cache ----------------------------------------------------------------------------

  class Cache {
    const keepsTurns: bool                       // Claude sessions keep turns, Kimi sessions the last content
    const same: (Content, Content) -> bool
    const valid: Content -> bool                 // a JSON array of at most 512 blocks
    var entries: Entries
    var total: int
    var nextGeneration: nat
    ghost var Log: map<nat, Write>               // every write by its generation

    /** The running total is the sum over all entries, and a generation names one write. */
    ghost predicate Valid()
      reads this
    {
      total == Total(entries) && Recorded(entries, Log, nextGeneration) && (keepsTurns ==> AllFit(entries))
    }

    constructor (keepsTurns: bool, same: (Content, Content) -> bool, valid: Content -> bool)
      ensures Valid() && entries == map[]
      ensures this.keepsTurns == keepsTurns && this.same == same && this.valid == valid
    {
      this.keepsTurns, this.same, this.valid := keepsTurns, same, valid;
      entries, total, nextGeneration, Log := map[], 0, 0, map[];
    }

    /** Deletes one entry and its bytes. */
    method Discard(key: Key)
      requires Valid() && key in entries
      modifies this`entries, this`total
      ensures Valid() && entries == old(entries) - {key}
    {
      TotalWithout(entries, key);
      total := total - Bytes(entries[key].contents);
      entries := entries - {key};
    }

    /** Evicts one batch of the oldest entries. */
    method EvictOldest(count: nat)
      requires Valid() && count == EVICT_BATCH && entries != map[] && !Within(entries, total)
      modifies this`entries, this`total
      ensures Valid() && |entries| < old(|entries|) && EvictedFrom(old(entries), entries)
    {
      var stamp := map k | k in entries :: entries[k].timestamp;
      assert stamp.Keys == entries.Keys && |stamp| == |stamp.Keys| && |entries| == |entries.Keys|;
      var victims := Eviction.Victims(stamp, count);
      DiscardAll(victims);
      Eviction.Remaining(old(entries), victims);
    }

    method DiscardAll(victims: seq<Key>)
      requires Valid() && Eviction.Distinct(victims) && forall k | k in victims :: k in entries
      modifies this`entries, this`total
      ensures Valid() && entries == old(entries) - Eviction.KeysOf(victims)
    {
      for i := 0 to |victims|
        invariant Valid() && entries == old(entries) - Eviction.KeysOf(victims[..i])
      {
        assert victims[..i + 1] == victims[..i] + [victims[i]];
        assert victims[i] !in victims[..i];
        Discard(victims[i]);
      }
      assert victims[..|victims|] == victims;
    }

    /** Evicts until both limits hold; the branch for an empty map is never taken. */
    method EnforceLimits()
      requires Valid()
      modifies this`entries, this`total
      ensures Valid() && Within(entries, total) && EvictedFrom(old(entries), entries)
    {
      while |entries| > MAX_ENTRIES || total > MAX_TOTAL_BYTES
        invariant Valid() && EvictedFrom(old(entries), entries)
        decreases |entries|
      {
        ghost var half := entries;
        if |entries| == 0 { assert false; }
        EvictOldest(EVICT_BATCH);
        if half != old(entries) { EvictedTwice(old(entries), half, entries); }
      }
    }
  
    /** Puts an entry of a new generation in place of what the key had. */
    method Put(key: Key, contents: seq<Content>, now: Time, deleted: bool)
      requires Valid() && (keepsTurns ==> Fits(contents))
      modifies this
      ensures Valid() && nextGeneration == old(nextGeneration) + 1
      ensures entries == old(entries)[key := Entry(contents, now, old(nextGeneration), deleted)]
      ensures Log == old(Log)[old(nextGeneration) := Write(key, contents, deleted)]
    {
      var e := Entry(contents, now, nextGeneration, deleted);
      TotalWith(entries, key, e);
      RecordedAfter(entries, Log, nextGeneration, key, e);
      if key in entries { total := total - Bytes(entries[key].contents); }
      total := total + Bytes(contents);
      Log := Log[nextGeneration := Write(key, contents, deleted)];
      entries, nextGeneration := entries[key := e], nextGeneration + 1;
    }

    /** Puts an entry and makes room. */
    method Store(key: Key, contents: seq<Content>, now: Time, deleted: bool)
      requires Valid() && (keepsTurns ==> Fits(contents))
      modifies this
      ensures Valid() && Within(entries, total) && nextGeneration == old(nextGeneration) + 1
      ensures EvictedFrom(old(entries)[key := Entry(contents, now, old(nextGeneration), deleted)], entries)
      ensures Log == old(Log)[old(nextGeneration) := Write(key, contents, deleted)]
    {
      Put(key, contents, now, deleted);
      EnforceLimits();
    }

    /** Drops an expired entry. */
    method Forget(key: Key)
      requires Valid() && key in entries
      modifies this`entries, this`total
      ensures Valid() && entries == old(entries) - {key} && total <= old(total) && |entries| == old(|entries|) - 1
    {
      TotalWithout(entries, key);
      Discard(key);
      assert entries.Keys == old(entries).Keys - {key};
      assert |entries| == |entries.Keys| && |old(entries)| == |old(entries).Keys|;
    }

    method Touch(key: Key, now: Time)
      requires Valid() && key in entries
      modifies this`entries
      ensures Valid() && entries == old(entries)[key := old(entries)[key].(timestamp := now)]
      ensures |entries| == old(|entries|)
    {
      TotalWith(entries, key, entries[key].(timestamp := now));
      entries := entries[key := entries[key].(timestamp := now)];
      assert entries.Keys == old(entries).Keys;
      assert |entries| == |entries.Keys| && |old(entries)| == |old(entries).Keys|;
    }

    /** Leaves a tombstone for a session that is not there, even if making room took it right away. */
    method Reserve(key: Key, now: Time)
      requires Valid() && key !in entries
      modifies this
      ensures Valid() && key in entries && entries[key] == Entry([], now, old(nextGeneration), true)
      ensures old(Within(entries, total)) ==> Within(entries, total)
      ensures forall k | k in entries && k != key :: k in old(entries) && entries[k] == old(entries)[k]
      ensures Log == old(Log)[old(nextGeneration) := Write(key, [], true)]
    {
      var e := Entry([], now, nextGeneration, true);
      Store(key, [], now, true);
      if old(Within(entries, total)) { RoomForTombstone(old(entries), entries, key, e); }
      PutBack(key, e);
    }

    method PutBack(key: Key, e: Entry)
      requires Valid() && Logged(e, key, Log) && e.contents == [] && (key in entries ==> entries[key] == e)
      modifies this`entries
      ensures Valid() && entries == old(entries)[key := e]
    {
      TotalWith(entries, key, e);
      entries := entries[key := e];
    }

    /** Reads a session, and fences a miss with a tombstone. */
    method Get(key: Key, now: Time) returns (found: Option<seq<Content>>, s: Snapshot)
      requires Valid()
      modifies this
      ensures Valid() && (old(Within(entries, total)) ==> Within(entries, total))
      ensures key == "" ==> found == None && s == Snapshot(false, false, 0) && entries == old(entries)
      ensures key != "" ==> s.loaded && s.found && key in entries && entries[key].generation == s.generation
      ensures found.Some? <==> key != "" && Live(old(entries), key, now) && !old(entries)[key].deleted &&
                               old(entries)[key].contents != []
      ensures found.Some? ==> found.value == old(entries)[key].contents
      ensures key != "" && Live(old(entries), key, now) ==>
        entries == old(entries)[key := old(entries)[key].(timestamp := now)]
    {
      if key == "" { return None, Snapshot(false, false, 0); }
      if !Live(entries, key, now) {
        if key in entries { Forget(key); }
        Reserve(key, now);
      } else {
        Touch(key, now);
      }
      var e := entries[key];
      s := Snapshot(true, true, e.generation);
      found := if e.deleted || e.contents == [] then None else Some(e.contents);
    }
  
    function Accepts(content: Content): bool {
      0 < |content| <= MAX_BYTES_PER_SESSION && valid(content)
    }

    /** Stores one content unconditionally. */
    method CacheContent(key: Key, content: Content, now: Time) returns (ok: bool)
      requires Valid()
      modifies this
      ensures Valid() && (ok <==> key != "" && Accepts(content))
      ensures !ok ==> entries == old(entries)
      ensures ok ==> Within(entries, total) &&
                     EvictedFrom(old(entries)[key := Entry([content], now, old(nextGeneration), false)], entries)
    {
      if key == "" || !Accepts(content) { return false; }
      assert Bytes([content]) == |content|;
      Store(key, [content], now, false);
      return true;
    }

    /** What a session holds after one more content. */
    function Extended(contents: seq<Content>, content: Content): seq<Content> {
      if keepsTurns then WithTurn(contents, content, same) else [content]
    }

    /**
     Adds a finished turn if nothing was written since the request read the session.  owner is
     the session the snapshot was taken of, which the code does not know.
     */
    method ReplaceIfUnchanged(key: Key, s: Snapshot, content: Content, now: Time, ghost owner: Key) returns (ok: bool)
      requires Valid() && (s.loaded && s.found ==> s.generation in Log && Log[s.generation].key == owner)
      modifies this
      ensures Valid()
      ensures ok <==> key != "" && Accepts(content) && (s.loaded ==> Matches(old(entries), key, s))
      ensures !ok ==> entries == old(entries)
      ensures ok ==> Within(entries, total) && EvictedFrom(old(entries)[key :=
        Entry(if s.loaded then Extended(ContentsAt(old(entries), key), content) else [content],
              now, old(nextGeneration), false)], entries)
      ensures ok && s.loaded && s.found ==> owner == key && key in old(entries)
      ensures ok && s.loaded && s.found ==>
        old(Log)[s.generation] == Write(key, old(entries)[key].contents, old(entries)[key].deleted)
    {
      if key == "" || !Accepts(content) { return false; }
      if !s.loaded {
        ok := CacheContent(key, content, now);
        return;
      }
      if !Matches(entries, key, s) { return false; }
      var contents := ContentsAt(entries, key);
      if keepsTurns { contents := AppendContent(contents, content, same); } else { contents := [content]; }
      Store(key, contents, now, false);
      return true;
    }

    /**
     Clears a session if nothing was written since the request read it.  The limits are not
     enforced here, so one call breaks them: with a snapshot that saw no entry, of a session that
     has none, in a full map.  Get never hands out such a snapshot, it leaves a tombstone.
     */
    method DeleteIfUnchanged(key: Key, s: Snapshot, now: Time) returns (ok: bool)
      requires Valid()
      modifies this
      ensures Valid() && (ok <==> key != "" && (s.loaded ==> Matches(old(entries), key, s)))
      ensures entries == if !ok then old(entries) else if !s.loaded then old(entries) - {key}
                         else old(entries)[key := Entry([], now, old(nextGeneration), true)]
      ensures old(Within(entries, total)) ==> (Within(entries, total) <==> !OneTooMany(old(entries), key, s))
      ensures old(Within(entries, total)) && s.found ==> Within(entries, total)
    {
      if key == "" { return false; }
      if !s.loaded {
        DeleteRequired(key);
        return true;
      }
      if !Matches(entries, key, s) { return false; }
      TotalWith(entries, key, Entry([], now, nextGeneration, true));
      SizeAfterPut(entries, key, Entry([], now, nextGeneration, true));
      Put(key, [], now, true);
      return true;
    }

    method DeleteRequired(key: Key)
      requires Valid()
      modifies this
      ensures Valid() && entries == if key == "" then old(entries) else old(entries) - {key}
      ensures |entries| <= old(|entries|) && total <= old(total)
    {
      if key != "" && key in entries { Forget(key); }
    }

    method Clear()
      requires Valid()
      modifies this`entries, this`total
      ensures Valid() && entries == map[] && total == 0
    {
      entries, total := map[], 0;
    }

    /** Drops what expired. */
    method Purge(now: Time)
      requires Valid()
      modifies this
      ensures Valid() && total <= old(total)
      ensures entries == map k | k in old(entries) && Live(old(entries), k, now) :: old(entries)[k]
    {
      var rest := entries.Keys;
      while rest != {}
        invariant Valid() && rest <= entries.Keys <= old(entries).Keys && total <= old(total)
        invariant forall k | k in entries :: entries[k] == old(entries)[k]
        invariant forall k | k in old(entries) && k !in rest :: k in entries <==> Live(old(entries), k, now)
        decreases |rest|
      {
        var k :| k in rest;
        rest := rest - {k};
        if !Live(entries, k, now) { Forget(k); }
      }
    }
  }

  /** The call would add a tombstone to a full map. */
  predicate OneTooMany(entries: Entries, key: Key, s: Snapshot) {
    key != "" && s.loaded && !s.found && key !in entries && |entries| == MAX_ENTRIES
  }

  function Name(n: nat): Key {
    if n == 0 then "x" else "x" + Name(n - 1)
  }

  lemma NameLength(n: nat)
    ensures |Name(n)| == n + 1 && Name(n)[0] == 'x'
  {
  }

  /** As many entries as wanted, each a tombstone. */
  function Filled(n: nat): Entries {
    if n == 0 then map[] else Filled(n - 1)[Name(n - 1) := Entry([], 0, n - 1, true)]
  }

  lemma {:induction false} FilledMeans(n: nat)
    ensures |Filled(n)| == n && Total(Filled(n)) == 0
    ensures forall k | k in Filled(n) :: 0 < |k| <= n && k[0] == 'x'
  {
    if n > 0 {
      var e := Entry([], 0, n - 1, true);
      FilledMeans(n - 1);
      NameLength(n - 1);
      SizeAfterPut(Filled(n - 1), Name(n - 1), e);
      TotalWith(Filled(n - 1), Name(n - 1), e);
    }
  }

  /** The limit can be passed: what the conditional delete makes of a full map. */
  lemma LimitPassed(now: Time, generation: nat)
    ensures var full, s := Filled(MAX_ENTRIES), Snapshot(true, false, 0);
      var after := full["y" := Entry([], now, generation, true)];
      && Within(full, Total(full)) && OneTooMany(full, "y", s) && Matches(full, "y", s)
      && !Within(after, Total(after))
  {
    FilledMeans(MAX_ENTRIES);
    SizeAfterPut(Filled(MAX_ENTRIES), "y", Entry([], now, generation, true));
  }

  function ContentsAt(entries: Entries, key: Key): seq<Content> {
    if key in entries then entries[key].contents else []
  }
}
