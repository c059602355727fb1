/**
 The bounded cache itself: an index map and a linked list that must agree.

 Models CLIProxyAPI/internal/cache/bounded_lru.go.  The eviction callback is the evicted
 result of a method; Created and Evicted remember all pairs stored and all handed to it.
 */
module BoundedLru {
  import opened Wrappers
  import opened LinkedList
  import Order = LruOrder

  ghost predicate Indexed<K(!new), V>(entries: map<K, Element<(K, V)>>, spine: seq<Element<(K, V)>>, i: int)
    requires 0 <= i < |spine|
  {
    spine[i].value.0 in entries && entries[spine[i].value.0] == spine[i]
  }

  ghost predicate Listed<K(!new), V>(entries: map<K, Element<(K, V)>>, spine: seq<Element<(K, V)>>, k: K)
    requires k in entries
  {
    entries[k] in spine && entries[k].value.0 == k
  }

  /** The index knows exactly the elements of the list, each by its key. */
  ghost predicate Agree<K(!new), V>(entries: map<K, Element<(K, V)>>, spine: seq<Element<(K, V)>>) {
    && (forall i {:trigger Indexed(entries, spine, i)} | 0 <= i < |spine| :: Indexed(entries, spine, i))
    && (forall k {:trigger Listed(entries, spine, k)} | k in entries :: Listed(entries, spine, k))
  }

  /** The index finds a key exactly where it first stands in the list. */
  lemma Located<K(!new), V>(entries: map<K, Element<(K, V)>>, spine: seq<Element<(K, V)>>, key: K)
    requires Agree(entries, spine)
    ensures key in entries <==> Order.Has(Values(spine), key)
    ensures key in entries ==>
      Order.Find(Values(spine), key) < |spine| && spine[Order.Find(Values(spine), key)] == entries[key]
  {
    var i := Order.Find(Values(spine), key);
    if i < |spine| { assert Indexed(entries, spine, i) && Values(spine)[i].0 == key; }
    if key in entries {
      assert Listed(entries, spine, key);
      var j :| 0 <= j < |spine| && spine[j] == entries[key];
      assert Values(spine)[j].0 == key;
    }
  }

  lemma AgreeAdded<K(!new), V>(entries: map<K, Element<(K, V)>>, spine: seq<Element<(K, V)>>, e: Element<(K, V)>)
    requires Agree(entries, spine) && e.value.0 !in entries
    ensures Agree(entries[e.value.0 := e], [e] + spine) && e !in spine
  {
    var after, s := entries[e.value.0 := e], [e] + spine;
    forall i | 0 <= i < |s| ensures Indexed(after, s, i) {
      if i > 0 { assert Indexed(entries, spine, i - 1); }
    }
    forall k | k in after ensures Listed(after, s, k) {
      if k in entries { assert Listed(entries, spine, k); }
    }
    forall i | 0 <= i < |spine| ensures spine[i] != e { assert Indexed(entries, spine, i); }
  }

  lemma AgreeRemoved<K(!new), V>(entries: map<K, Element<(K, V)>>, spine: seq<Element<(K, V)>>, i: nat)
    requires Agree(entries, spine) && i < |spine| && forall j | 0 <= j < |spine| && j != i :: spine[j] != spine[i]
    ensures Agree(entries - {spine[i].value.0}, Without(spine, i)) && spine[i].value.0 in entries
  {
    var after, s := entries - {spine[i].value.0}, Without(spine, i);
    assert Indexed(entries, spine, i);
    forall j | 0 <= j < |s| ensures Indexed(after, s, j) {
      assert Indexed(entries, spine, if j < i then j else j + 1);
    }
    forall k | k in after ensures Listed(after, s, k) {
      assert Listed(entries, spine, k);
      var j :| 0 <= j < |spine| && spine[j] == entries[k];
      assert s[if j < i then j else j - 1] == spine[j];
    }
  }

  lemma AgreeTouched<K(!new), V>(entries: map<K, Element<(K, V)>>, spine: seq<Element<(K, V)>>, i: nat)
    requires Agree(entries, spine) && i < |spine|
    ensures Agree(entries, Touched(spine, i))
  {
    var s := Touched(spine, i);
    forall j | 0 <= j < |s| ensures Indexed(entries, s, j) {
      assert Indexed(entries, spine, if j == 0 then i else if j <= i then j - 1 else j);
    }
    forall k | k in entries ensures Listed(entries, s, k) {
      assert Listed(entries, spine, k);
      var j :| 0 <= j < |spine| && spine[j] == entries[k];
      assert s[if j == i then 0 else if j < i then j + 1 else j] == spine[j];
    }
  }

  /** Created pairs stay balanced when one comes in and when one is handed out. */
  lemma OneIn<T>(items: seq<T>, x: T)
    ensures multiset([x] + items) == multiset(items) + multiset{x}
  {
  }

  lemma OneOut<T>(items: seq<T>, i: nat, created: multiset<T>, evicted: multiset<T>)
    requires i < |items| && created == multiset(items) + evicted
    ensures created == multiset(Without(items, i)) + (evicted + multiset{items[i]})
  {
    TouchedSame(items, i);
  }

  class BoundedLru<K(==, !new), V> {
    const capacity: nat
    const order: List<(K, V)>
    var entries: map<K, Element<(K, V)>>
    ghost var Items: seq<(K, V)>         // the pairs held, most recently used first
    ghost var Created: multiset<(K, V)>
    ghost var Evicted: multiset<(K, V)>

    /** What always holds, even while there is one pair too many. */
    ghost predicate Sound()
      reads this, order, order.Repr
    {
      && order.Valid() && 0 < capacity && Items == Values(order.Spine)
      && Agree(entries, order.Spine)
      && Created == multiset(Items) + Evicted
    }

    ghost predicate Valid()
      reads this, order, order.Repr
    {
      Sound() && |Items| <= capacity
    }

    constructor (capacity: int)
      ensures Valid() && Items == [] && fresh(order)
      ensures this.capacity == if capacity < 1 then 1 else capacity
      ensures Created == Evicted == multiset{}
    {
      this.capacity := if capacity < 1 then 1 else capacity;
      order := new List();
      entries, Items, Created, Evicted := map[], [], multiset{}, multiset{};
    }

    method MoveToFront(e: Element<(K, V)>, ghost i: nat)
      requires Valid() && i < |order.Spine| && order.Spine[i] == e
      modifies this`Items, order, order.Repr
      ensures Valid() && Items == Touched(old(Items), i) && order.Repr == old(order.Repr)
    {
      TouchedSame(Items, i);
      AgreeTouched(entries, order.Spine, i);
      Items := Touched(Items, i);
      order.MoveToFront(e, i);
    }

    /** Takes an element out of the list and the index, and hands its pair to the callback. */
    method Discard(e: Element<(K, V)>, ghost i: nat)
      requires Sound() && i < |order.Spine| && order.Spine[i] == e
      modifies this, order, order.Repr
      ensures Sound() && Items == Without(old(Items), i) && order.Repr == old(order.Repr)
      ensures Created == old(Created) && Evicted == old(Evicted) + multiset{e.value}
    {
      OneOut(Items, i, Created, Evicted);
      order.ApartFrom(i);
      AgreeRemoved(entries, order.Spine, i);
      entries := entries - {e.value.0};
      Items, Evicted := Without(Items, i), Evicted + multiset{e.value};
      order.Remove(e, i);
    }

    /** Stores a new pair in front; there may be one too many then. */
    method Add(key: K, value: V)
      requires Valid() && key !in entries
      modifies this, order, order.Repr
      ensures Sound() && Items == [(key, value)] + old(Items)
      ensures fresh(order.Repr - old(order.Repr))
      ensures Created == old(Created) + multiset{(key, value)} && Evicted == old(Evicted)
    {
      OneIn(Items, (key, value));
      var e := new Element((key, value));
      AgreeAdded(entries, order.Spine, e);
      entries := entries[key := e];
      Items, Created := [(key, value)] + Items, Created + multiset{(key, value)};
      order.PushFront(e);
    }

    /** Hands the oldest pair out if there is one too many. */
    method Shrink() returns (evicted: Option<(K, V)>)
      requires Sound() && |Items| <= capacity + 1
      modifies this, order, order.Repr
      ensures Valid() && Created == old(Created) && order.Repr == old(order.Repr)
      ensures evicted == if |old(Items)| > capacity then Some(old(Items)[capacity]) else None
      ensures Items == if evicted.Some? then old(Items)[..capacity] else old(Items)
      ensures Evicted == old(Evicted) + if evicted.Some? then multiset{evicted.value} else multiset{}
    {
      if order.length <= capacity { return None; }
      var oldest := order.back;
      evicted := Some(oldest.value);
      Discard(oldest, |order.Spine| - 1);
    }

    /** A key that is missing: the pair is stored, and the oldest may have to go for it. */
    method Miss(key: K, value: V) returns (evicted: Option<(K, V)>)
      requires Valid() && key !in entries
      modifies this, order, order.Repr
      ensures Valid() && Items == Order.Added(old(Items), capacity, key, value) && fresh(order.Repr - old(order.Repr))
      ensures evicted == if |old(Items)| == capacity then Some(old(Items)[capacity - 1]) else None
      ensures Created == old(Created) + multiset{(key, value)}
      ensures Evicted == old(Evicted) + if evicted.Some? then multiset{evicted.value} else multiset{}
    {
      Order.AddedCut(Items, capacity, key, value);
      Add(key, value);
      evicted := Shrink();
    }

    /** The value of a key, created if it is missing. */
    method GetOrAdd(key: K, create: () -> V) returns (value: V, evicted: Option<(K, V)>)
      requires Valid()
      modifies this, order, order.Repr
      ensures Valid() && Items == Order.GetOrAdd(old(Items), capacity, key, create())
      ensures fresh(order.Repr - old(order.Repr))
      ensures value == if Order.Has(old(Items), key) then old(Items)[Order.Find(old(Items), key)].1 else create()
      ensures evicted.Some? <==> !Order.Has(old(Items), key) && |old(Items)| == capacity
      ensures evicted.Some? ==> evicted.value == old(Items)[capacity - 1]
      ensures Created == old(Created) + if Order.Has(old(Items), key) then multiset{} else multiset{(key, create())}
      ensures Evicted == old(Evicted) + if evicted.Some? then multiset{evicted.value} else multiset{}
    {
      Located(entries, order.Spine, key);
      if key in entries {
        MoveToFront(entries[key], Order.Find(Items, key));
        return entries[key].value.1, None;
      }
      value := create();
      evicted := Miss(key, value);
    }

    method Get(key: K) returns (value: Option<V>)
      requires Valid()
      modifies this, order, order.Repr
      ensures Valid() && Items == Order.Get(old(Items), key) && order.Repr == old(order.Repr)
      ensures value == if Order.Has(old(Items), key) then Some(old(Items)[Order.Find(old(Items), key)].1) else None
      ensures Created == old(Created) && Evicted == old(Evicted)
    {
      Located(entries, order.Spine, key);
      if key !in entries { return None; }
      MoveToFront(entries[key], Order.Find(Items, key));
      return Some(entries[key].value.1);
    }

    /** Removes a key; its pair is handed to the eviction callback. */
    method Delete(key: K) returns (removed: Option<(K, V)>)
      requires Valid()
      modifies this, order, order.Repr
      ensures Valid() && Items == Order.Delete(old(Items), key) && order.Repr == old(order.Repr)
      ensures removed == if Order.Has(old(Items), key) then Some(old(Items)[Order.Find(old(Items), key)]) else None
      ensures Created == old(Created)
      ensures Evicted == old(Evicted) + if removed.Some? then multiset{removed.value} else multiset{}
    {
      Located(entries, order.Spine, key);
      if key !in entries { return None; }
      var e := entries[key];
      Discard(e, Order.Find(Items, key));
      return Some(e.value);
    }

    /** The number of pairs; the index and the list agree on it. */
    method Len() returns (n: nat)
      requires Valid()
      ensures n == |Items| <= capacity && n == |entries|
    {
      order.AllApart();
      SameSize(entries, order.Spine);
      return |entries|;
    }
  }

  lemma Inhabited<K(!new), V>(entries: map<K, Element<(K, V)>>, spine: seq<Element<(K, V)>>)
    requires Agree(entries, spine) && entries != map[]
    ensures spine != []
  {
    var k :| k in entries;
    assert Listed(entries, spine, k);
  }

  lemma {:induction false} SameSize<K(!new), V>(entries: map<K, Element<(K, V)>>, spine: seq<Element<(K, V)>>)
    requires Agree(entries, spine) && forall i, j | 0 <= i < j < |spine| :: spine[i] != spine[j]
    ensures |entries| == |spine|
    decreases |spine|
  {
    if entries != map[] { Inhabited(entries, spine); }
    if spine != [] {
      AgreeRemoved(entries, spine, 0);
      var rest := entries - {spine[0].value.0};
      SameSize(rest, Without(spine, 0));
      assert entries.Keys == rest.Keys + {spine[0].value.0};
      assert |entries| == |entries.Keys| && |rest| == |rest.Keys|;
    }
  }
}
