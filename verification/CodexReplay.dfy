/**
 Where Codex conversations are kept: the in-process map, and the shared store with its
 compare-and-swap append loop.

 Models CLIProxyAPI/internal/cache/codex_reasoning_replay_cache.go.
 */
module CodexReplay {
  import opened Wrappers
  import opened CodexTurns
  import Eviction

  type Key = string
  type Time = nat
  type Normalizer = Item -> Option<Item>

  const TTL: Time := 3_600_000_000_000
  const MAX_ENTRIES: nat := 10240
  const EVICT_BATCH: nat := 128

  datatype Entry = Entry(items: Items, timestamp: Time)

  function Accepted(items: Items, norm: Normalizer): Items {
    if items == [] then []
    else (match norm(items[0]) case Some(i) => [i] case None => []) + Accepted(items[1..], norm)
  }

  /** What is stored of a finished turn; empty means nothing is. */
  function Normalized(items: Items, norm: Normalizer): Items {
    Trimmed(Accepted(items, norm))
  }

  // ---- the local map --------------------------------------------------------------

  predicate Live(entries: map<Key, Entry>, key: Key, now: Time) {
    key in entries && now <= entries[key].timestamp + TTL
  }

  function LiveItems(entries: map<Key, Entry>, key: Key, now: Time): Items {
    if Live(entries, key, now) then entries[key].items else []
  }

  /** A batch of the oldest entries goes once the bound is passed, and only then. */
  ghost predicate MadeRoom(full: map<Key, Entry>, kept: map<Key, Entry>) {
    && (|full| <= MAX_ENTRIES ==> kept == full)
    && (|full| > MAX_ENTRIES ==> |kept| == |full| - EVICT_BATCH)
    && kept.Keys <= full.Keys && (forall k | k in kept :: kept[k] == full[k])
    && forall k, l | k in full && k !in kept && l in kept :: full[k].timestamp <= kept[l].timestamp
  }

  class Cache {
    const norm: Normalizer
    var entries: map<Key, Entry>

    ghost predicate Valid()
      reads this
    {
      |entries| <= MAX_ENTRIES && forall k | k in entries :: Fits(entries[k].items)
    }

    constructor (norm: Normalizer)
      ensures Valid() && entries == map[] && this.norm == norm
    {
      this.norm, entries := norm, map[];
    }

    method Put(key: Key, e: Entry)
      requires Valid() && Fits(e.items)
      modifies this
      ensures Valid() && MadeRoom(old(entries)[key := e], entries)
    {
      entries := entries[key := e];
      Grown(old(entries), key, e);
      if |entries| > MAX_ENTRIES { EvictOldest(EVICT_BATCH); }
    }

    method EvictOldest(count: nat)
      requires count <= |entries|
      modifies this
      ensures |entries| == old(|entries|) - count && entries.Keys <= old(entries).Keys
      ensures forall k | k in entries :: entries[k] == old(entries)[k]
      ensures forall k, l | k in old(entries) && k !in entries && l in entries ::
        old(entries)[k].timestamp <= entries[l].timestamp
    {
      var stamp := map k | k in entries :: entries[k].timestamp;
      assert stamp.Keys == entries.Keys;
      assert |stamp| == |stamp.Keys| == |entries|;
      var victims := Eviction.Victims(stamp, count);
      DeleteAll(victims);
      Eviction.Remaining(old(entries), victims);
    }

    method DeleteAll(victims: seq<Key>)
      modifies this
      ensures entries == old(entries) - Eviction.KeysOf(victims)
    {
      for i := 0 to |victims|
        invariant entries == old(entries) - Eviction.KeysOf(victims[..i])
      {
        assert victims[..i + 1] == victims[..i] + [victims[i]];
        entries := entries - {victims[i]};
      }
      assert victims[..|victims|] == victims;
    }

    /** Appends one finished turn to a conversation that did not expire, or starts a new one. */
    method AppendItems(key: Key, items: Items, now: Time) returns (ok: bool)
      requires Valid()
      modifies this
      ensures Valid() && (ok <==> key != "" && Normalized(items, norm) != [])
      ensures !ok ==> entries == old(entries)
      ensures ok ==> MadeRoom(
        old(entries)[key := Entry(Appended(LiveItems(old(entries), key, now), Normalized(items, norm)), now)], entries)
    {
      var turn := Trim(Accepted(items, norm));
      if key == "" || turn == [] { return false; }
      var e := if key in entries then entries[key] else Entry([], 0);
      if now > e.timestamp + TTL { e := e.(items := []); }
      var combined := CodexTurns.Append(e.items, turn);
      AppendedFits(e.items, turn);
      Put(key, Entry(combined, now));
      return true;
    }

    /** Replaces a conversation. */
    method CacheItems(key: Key, items: Items, now: Time) returns (ok: bool)
      requires Valid()
      modifies this
      ensures Valid() && (ok <==> key != "" && Normalized(items, norm) != [])
      ensures if ok then MadeRoom(old(entries)[key := Entry(Normalized(items, norm), now)], entries)
              else entries == old(entries)
    {
      var kept := Trim(Accepted(items, norm));
      if key == "" || kept == [] { return false; }
      Put(key, Entry(kept, now));
      return true;
    }

    /** Reads a conversation and keeps it alive. */
    method Get(key: Key, now: Time) returns (r: Option<Items>)
      requires Valid()
      modifies this
      ensures Valid()
      ensures r == if key != "" && Live(old(entries), key, now) then Some(old(entries)[key].items) else None
      ensures entries == if key == "" || key !in old(entries) then old(entries)
                         else if r.Some? then old(entries)[key := Entry(r.value, now)] else old(entries) - {key}
    {
      if key == "" || key !in entries { return None; }
      var e := entries[key];
      if now > e.timestamp + TTL {
        entries := entries - {key};
        assert entries.Keys == old(entries).Keys - {key};
        assert |entries| == |entries.Keys| && |old(entries)| == |old(entries).Keys|;
        return None;
      }
      entries := entries[key := e.(timestamp := now)];
      assert entries.Keys == old(entries).Keys;
      assert |entries| == |entries.Keys| && |old(entries)| == |old(entries).Keys|;
      return Some(e.items);
    }
  }

  lemma Grown(entries: map<Key, Entry>, key: Key, e: Entry)
    ensures |entries[key := e]| <= |entries| + 1
  {
    var after := entries[key := e];
    assert after.Keys == entries.Keys + {key};
    assert |after| == |after.Keys| && |entries| == |entries.Keys|;
  }

  lemma AppendedFits(existing: Items, turn: Items)
    ensures Fits(Appended(existing, turn))
  {
    var kept := if existing != [] && !existing[0].marker then [] else existing;
    TrimmedFrom(kept);
    TrimmedFrom(kept + turn);
  }

  // ---- appending through the shared store ---------------------------------------------

  const ATTEMPTS: nat := 32

  type Id = nat

  /** A request about to read, about to swap, or done. */
  datatype Request =
    | Reading(key: Key, turn: Items, attempt: nat)
    | Swapping(key: Key, turn: Items, seen: Option<Items>, attempt: nat)
    | Done(ok: bool)

  /**
     A conversation in the store with its past: what it was set to, and the turns appended to it
     since, in the order their swaps succeeded.
   */
  datatype Conversation = Conversation(items: Items, base: Items, turns: seq<Items>)

  datatype Store = Store(held: map<Key, Conversation>, requests: map<Id, Request>)

  datatype Event =
    | AppendTurn(id: Id, key: Key, items: Items)
    | Call(id: Id)
    | Abort(id: Id)
    | Set(key: Key, items: Items)
    | Drop(key: Key)

  function ItemsAt(s: Store, key: Key): Option<Items> {
    if key in s.held then Some(s.held[key].items) else None
  }

  /** A swap is decided by content: an equal value is as good as the one that was read. */
  function Proceed(s: Store, id: Id): Store {
    if id !in s.requests then s
    else match s.requests[id]
    case Reading(key, turn, attempt) => s.(requests := s.requests[id := Swapping(key, turn, ItemsAt(s, key), attempt)])
    case Swapping(key, turn, seen, attempt) =>
      if ItemsAt(s, key) == seen then
        var before := if key in s.held then s.held[key] else Conversation([], [], []);
        var after := Conversation(Appended(seen.GetOr([]), turn), before.base, before.turns + [turn]);
        Store(s.held[key := after], s.requests[id := Done(true)])
      else if attempt + 1 < ATTEMPTS then s.(requests := s.requests[id := Reading(key, turn, attempt + 1)])
      else s.(requests := s.requests[id := Done(false)])
    case Done(_) => s
  }

  function Next(s: Store, e: Event, norm: Normalizer): Store {
    match e
    case AppendTurn(id, key, items) =>
      var turn := Normalized(items, norm);
      if key == "" || turn == [] then s.(requests := s.requests[id := Done(false)])
      else s.(requests := s.requests[id := Reading(key, turn, 0)])
    case Call(id) => Proceed(s, id)
    case Abort(id) => s.(requests := s.requests[id := Done(false)])
    case Set(key, items) =>
      var kept := Normalized(items, norm);
      if key == "" || kept == [] then s else s.(held := s.held[key := Conversation(kept, kept, [])])
    case Drop(key) => s.(held := s.held - {key})
  }

  function After(events: seq<Event>, norm: Normalizer): Store {
    if events == [] then Store(map[], map[]) else Next(After(events[..|events| - 1], norm), events[|events| - 1], norm)
  }

  function AppendedTo(base: Items, turns: seq<Items>): Items {
    if turns == [] then base else Appended(AppendedTo(base, turns[..|turns| - 1]), turns[|turns| - 1])
  }

  ghost predicate Faithful(s: Store) {
    forall k | k in s.held :: s.held[k].items == AppendedTo(s.held[k].base, s.held[k].turns)
  }

  /**
     No append is lost: however requests interleave, a conversation holds what appending its
     turns one after the other gives.
   */
  lemma {:induction false} NoLostAppend(events: seq<Event>, norm: Normalizer)
    ensures Faithful(After(events, norm))
  {
    if events != [] {
      var s, e := After(events[..|events| - 1], norm), events[|events| - 1];
      NoLostAppend(events[..|events| - 1], norm);
      if e.Call? && e.id in s.requests && s.requests[e.id].Swapping? {
        var turns := if s.requests[e.id].key in s.held then s.held[s.requests[e.id].key].turns else [];
        assert (turns + [s.requests[e.id].turn])[..|turns|] == turns;
      }
    }
  }

  function TurnsAt(s: Store, key: Key): seq<Items> {
    if key in s.held then s.held[key].turns else []
  }

  /** The event neither sets nor loses the conversation; it may append to it. */
  predicate OnlyAppended(e: Event, key: Key) {
    !(e.Set? && e.key == key) && !(e.Drop? && e.key == key)
  }

  /** The swap a request is about to make goes through. */
  ghost predicate Succeeds(s: Store, id: Id) {
    id in s.requests && s.requests[id].Swapping? && Proceed(s, id).requests[id] == Done(true)
  }

  lemma SwapAppends(s: Store, id: Id)
    requires Succeeds(s, id)
    ensures var r, t := s.requests[id], Proceed(s, id); r.key in t.held && TurnsAt(t, r.key) == TurnsAt(s, r.key) + [r.turn]
  {
  }

  lemma TurnsOnlyGrow(s: Store, e: Event, norm: Normalizer, key: Key)
    requires key in s.held && OnlyAppended(e, key)
    ensures key in Next(s, e, norm).held && TurnsAt(s, key) <= TurnsAt(Next(s, e, norm), key)
  {
  }

  lemma AfterStep(events: seq<Event>, norm: Normalizer, j: nat)
    requires 0 < j <= |events|
    ensures After(events[..j], norm) == Next(After(events[..j - 1], norm), events[j - 1], norm)
  {
    assert events[..j][..j - 1] == events[..j - 1] && events[..j][j - 1] == events[j - 1];
  }

  /** What the turns of a conversation are at one moment and at a later one. */
  ghost predicate Continued(s: Store, t: Store, key: Key) {
    key in t.held && TurnsAt(s, key) <= TurnsAt(t, key)
  }

  lemma {:induction false} TurnsStay(events: seq<Event>, norm: Normalizer, i: nat, j: nat, key: Key)
    requires i <= j <= |events| && key in After(events[..i], norm).held
    requires forall k | i <= k < j :: OnlyAppended(events[k], key)
    ensures Continued(After(events[..i], norm), After(events[..j], norm), key)
    decreases j
  {
    if i < j {
      TurnsStay(events, norm, i, j - 1, key);
      AfterStep(events, norm, j);
      assert OnlyAppended(events[j - 1], key);
      TurnsOnlyGrow(After(events[..j - 1], norm), events[j - 1], norm, key);
    }
  }

  /**
     A request that succeeds at some moment has put its turn behind all that were there, and there
     the turn stays for as long as the conversation is not set anew or lost, whoever else appends.
   */
  lemma SuccessAppends(events: seq<Event>, norm: Normalizer, i: nat, j: nat, id: Id)
    requires i < j <= |events| && events[i] == Call(id) && Succeeds(After(events[..i], norm), id)
    requires forall k | i < k < j :: OnlyAppended(events[k], After(events[..i], norm).requests[id].key)
    ensures var s, t := After(events[..i], norm), After(events[..j], norm); var r := s.requests[id];
      r.key in t.held && TurnsAt(s, r.key) + [r.turn] <= TurnsAt(t, r.key)
  {
    var s := After(events[..i], norm);
    AfterStep(events, norm, i + 1);
    SwapAppends(s, id);
    TurnsStay(events, norm, i + 1, j, s.requests[id].key);
  }

  lemma {:induction false} FromNothing(turns: seq<Items>)
    ensures AppendedTo([], turns) == AppendedAll(turns)
  {
    if turns != [] { FromNothing(turns[..|turns| - 1]); }
  }

  /**
     Main result: a conversation that was only appended to holds the longest fitting suffix of
     all its turns, in the order their swaps succeeded.
   */
  lemma ConversationIsTrimmedHistory(events: seq<Event>, norm: Normalizer, key: Key)
    requires key in After(events, norm).held && After(events, norm).held[key].base == []
    requires DistinctTurns(After(events, norm).held[key].turns)
    ensures LongestFit(Concat(After(events, norm).held[key].turns), After(events, norm).held[key].items)
  {
    var turns := After(events, norm).held[key].turns;
    NoLostAppend(events, norm);
    FromNothing(turns);
    OnlineIsOffline(turns);
    TrimmedLongest(Concat(turns));
  }
}
