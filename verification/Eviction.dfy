/**
 Evicting the oldest entries of a cache in one batch.

 Models the candidate list, its sort by timestamp and the deletion of its first entries, as
 CLIProxyAPI/internal/cache/antigravity_reasoning_replay_cache.go and its siblings do it.
 */
module Eviction {

  type Key = string
  type Time = nat

  ghost predicate SortedBy(order: seq<Key>, stamp: map<Key, Time>)
    requires forall k | k in order :: k in stamp
  {
    forall i, j | 0 <= i < j < |order| :: stamp[order[i]] <= stamp[order[j]]
  }

  ghost predicate Distinct(order: seq<Key>) {
    forall i, j | 0 <= i < j < |order| :: order[i] != order[j]
  }

  function InsertAt(order: seq<Key>, i: nat, key: Key): seq<Key>
    requires i <= |order|
  {
    order[..i] + [key] + order[i..]
  }

  lemma InsertKeepsDistinct(order: seq<Key>, i: nat, key: Key)
    requires i <= |order| && Distinct(order) && key !in order
    ensures Distinct(InsertAt(order, i, key))
  {
  }

  lemma InsertKeys(order: seq<Key>, i: nat, key: Key)
    requires i <= |order|
    ensures forall k :: k in InsertAt(order, i, key) <==> k in order || k == key
  {
    assert order == order[..i] + order[i..];
  }

  lemma InsertSorted(order: seq<Key>, stamp: map<Key, Time>, i: nat, key: Key)
    requires i <= |order| && key in stamp && (forall k | k in order :: k in stamp) && SortedBy(order, stamp)
    requires i > 0 ==> stamp[order[i - 1]] <= stamp[key]
    requires i < |order| ==> stamp[key] <= stamp[order[i]]
    ensures forall k | k in InsertAt(order, i, key) :: k in stamp
    ensures SortedBy(InsertAt(order, i, key), stamp)
  {
    var r := InsertAt(order, i, key);
    InsertKeys(order, i, key);
    forall a, b | 0 <= a < b < |r| ensures stamp[r[a]] <= stamp[r[b]] {
      InsertedAt(order, i, key, a);
      InsertedAt(order, i, key, b);
      if a == i && b > i { AtMost(order, stamp, i, b - 1); }
      if b == i && a < i { AtMost(order, stamp, a, i - 1); }
    }
  }

  lemma InsertedAt(order: seq<Key>, i: nat, key: Key, a: nat)
    requires i <= |order| && a <= |order|
    ensures InsertAt(order, i, key)[a] == if a < i then order[a] else if a == i then key else order[a - 1]
  {
  }

  lemma AtMost(order: seq<Key>, stamp: map<Key, Time>, a: nat, b: nat)
    requires a <= b < |order| && (forall k | k in order :: k in stamp) && SortedBy(order, stamp)
    ensures stamp[order[a]] <= stamp[order[b]]
  {
  }

  /** Inserts a key behind all keys that are not younger. */
  method Insert(order: seq<Key>, stamp: map<Key, Time>, key: Key) returns (r: seq<Key>)
    requires key in stamp && key !in order && forall k | k in order :: k in stamp
    requires Distinct(order) && SortedBy(order, stamp)
    ensures Distinct(r) && |r| == |order| + 1 && (forall k :: k in r <==> k in order || k == key)
    ensures SortedBy(r, stamp)
  {
    var i := |order|;
    while i > 0 && stamp[key] < stamp[order[i - 1]]
      invariant 0 <= i <= |order|
      invariant i < |order| ==> stamp[key] < stamp[order[i]]
    {
      i := i - 1;
    }
    r := InsertAt(order, i, key);
    InsertSorted(order, stamp, i, key);
    InsertKeepsDistinct(order, i, key);
    InsertKeys(order, i, key);
  }

  /** The keys of a cache, oldest first. */
  method OldestFirst(stamp: map<Key, Time>) returns (order: seq<Key>)
    ensures Distinct(order) && |order| == |stamp| && (forall k :: k in order <==> k in stamp)
    ensures SortedBy(order, stamp)
  {
    order := [];
    var rest := stamp.Keys;
    while rest != {}
      invariant rest <= stamp.Keys && Distinct(order) && |order| + |rest| == |stamp.Keys|
      invariant forall k :: k in order <==> k in stamp && k !in rest
      invariant SortedBy(order, stamp)
      decreases |rest|
    {
      var k :| k in rest;
      order := Insert(order, stamp, k);
      rest := rest - {k};
    }
    assert |stamp.Keys| == |stamp|;
  }

  /** The keys to evict: the count oldest, or all of them. */
  method Victims(stamp: map<Key, Time>, count: nat) returns (victims: seq<Key>)
    ensures Distinct(victims) && |victims| == (if count <= |stamp| then count else |stamp|)
    ensures forall k | k in victims :: k in stamp
    ensures forall k, l | k in victims && l in stamp && l !in victims :: stamp[k] <= stamp[l]
  {
    var order := OldestFirst(stamp);
    var n := if count <= |order| then count else |order|;
    victims := order[..n];
    forall k, l | k in victims && l in stamp && l !in victims ensures stamp[k] <= stamp[l] {
      var i :| 0 <= i < n && order[i] == k;
      assert l in order;
      var j :| 0 <= j < |order| && order[j] == l;
      assert forall m | 0 <= m < n :: victims[m] == order[m];
      assert j >= n;
    }
  }

  ghost function KeysOf(order: seq<Key>): set<Key> {
    set k | k in order
  }

  lemma DistinctCount(order: seq<Key>)
    requires Distinct(order)
    ensures |KeysOf(order)| == |order|
  {
    if order == [] {
      assert KeysOf(order) == {};
    } else {
      DistinctCount(order[1..]);
      assert KeysOf(order) == {order[0]} + KeysOf(order[1..]);
      assert order[0] !in KeysOf(order[1..]);
    }
  }

  /** Removing distinct present keys shrinks a map by their number. */
  lemma Remaining<V>(m: map<Key, V>, gone: seq<Key>)
    requires Distinct(gone) && forall k | k in gone :: k in m
    ensures (m - KeysOf(gone)).Keys == m.Keys - KeysOf(gone)
    ensures |m - KeysOf(gone)| == |m| - |gone|
  {
    DistinctCount(gone);
    var rest := m - KeysOf(gone);
    assert rest.Keys == m.Keys - KeysOf(gone) && KeysOf(gone) <= m.Keys;
    assert |rest| == |rest.Keys| && |m| == |m.Keys|;
  }
}
