/**
 Least-recently-used order as a sequence, most recent first: what BoundedLru implements, and
 how caches of different capacities compare.

 Models CLIProxyAPI/internal/cache/bounded_lru.go.
 */
module LruOrder {
  import opened LinkedList

  /** Where a key stands, or the length. */
  function Find<K(==), V>(items: seq<(K, V)>, key: K): (i: nat)
    ensures i <= |items| && (i < |items| ==> items[i].0 == key)
    ensures forall j | 0 <= j < i :: items[j].0 != key
  {
    if items == [] || items[0].0 == key then 0 else 1 + Find(items[1..], key)
  }

  predicate Has<K(==), V>(items: seq<(K, V)>, key: K) {
    Find(items, key) < |items|
  }

  function Added<K, V>(items: seq<(K, V)>, capacity: nat, key: K, value: V): seq<(K, V)> {
    if |items| + 1 > capacity && items != [] then [(key, value)] + items[..|items| - 1] else [(key, value)] + items
  }

  /** Adding to a full cache is putting the pair in front and cutting at the capacity. */
  lemma AddedCut<K, V>(items: seq<(K, V)>, capacity: nat, key: K, value: V)
    requires 0 < capacity && |items| <= capacity
    ensures var all := [(key, value)] + items;
      Added(items, capacity, key, value) == (if |all| > capacity then all[..capacity] else all)
    ensures |items| == capacity ==> ([(key, value)] + items)[capacity] == items[capacity - 1]
  {
  }

  function GetOrAdd<K(==), V>(items: seq<(K, V)>, capacity: nat, key: K, value: V): seq<(K, V)> {
    if Has(items, key) then Touched(items, Find(items, key)) else Added(items, capacity, key, value)
  }

  function Get<K(==), V>(items: seq<(K, V)>, key: K): seq<(K, V)> {
    if Has(items, key) then Touched(items, Find(items, key)) else items
  }

  function Delete<K(==), V>(items: seq<(K, V)>, key: K): seq<(K, V)> {
    if Has(items, key) then Without(items, Find(items, key)) else items
  }

  // ---- keys ---------------------------------------------------------------------

  function Keys<K, V>(items: seq<(K, V)>): (r: seq<K>)
    ensures |r| == |items| && forall i | 0 <= i < |r| :: r[i] == items[i].0
  {
    seq(|items|, i requires 0 <= i < |items| => items[i].0)
  }

  ghost predicate Distinct<T>(s: seq<T>) {
    forall i, j | 0 <= i < j < |s| :: s[i] != s[j]
  }

  /** The same operation seen on the keys alone. */
  function Use<K(==)>(keys: seq<K>, capacity: nat, key: K): seq<K> {
    if key in keys then Front(keys, key)
    else if |keys| + 1 > capacity && keys != [] then [key] + keys[..|keys| - 1]
    else [key] + keys
  }

  function Place<K(==)>(keys: seq<K>, key: K): (i: nat)
    ensures i <= |keys| && (i < |keys| <==> key in keys)
  {
    if keys == [] || keys[0] == key then 0 else 1 + Place(keys[1..], key)
  }

  lemma {:induction false} PlaceIsFirst<K>(keys: seq<K>, key: K)
    ensures Place(keys, key) < |keys| ==> keys[Place(keys, key)] == key
    ensures forall j | 0 <= j < Place(keys, key) :: keys[j] != key
  {
    if keys != [] && keys[0] != key {
      PlaceIsFirst(keys[1..], key);
      assert forall j | 0 < j < Place(keys, key) :: keys[j] == keys[1..][j - 1];
    }
  }

  function Front<K(==)>(keys: seq<K>, key: K): seq<K>
    requires key in keys
  {
    Touched(keys, Place(keys, key))
  }

  function Drop<K(==)>(keys: seq<K>, key: K): seq<K> {
    if key in keys then Without(keys, Place(keys, key)) else keys
  }

  function Look<K(==)>(keys: seq<K>, key: K): seq<K> {
    if key in keys then Front(keys, key) else keys
  }

  /** A key stands at the same place in a prefix, or behind it. */
  lemma PlaceInPrefix<K>(small: seq<K>, large: seq<K>, key: K)
    requires small <= large
    ensures if key in small then Place(small, key) == Place(large, key) else Place(large, key) >= |small|
  {
    PlaceIsFirst(small, key);
    PlaceIsFirst(large, key);
    assert forall j | 0 <= j < |small| :: small[j] == large[j];
  }

  lemma SamePlace<K, V>(items: seq<(K, V)>, key: K)
    ensures Place(Keys(items), key) == Find(items, key) && (Has(items, key) <==> key in Keys(items))
  {
    PlaceIsFirst(Keys(items), key);
    var i, j := Place(Keys(items), key), Find(items, key);
    if i < |items| { assert Keys(items)[i] == key; }
    if j < |items| { assert Keys(items)[j] == key; }
  }

  lemma KeysOfTouched<K, V>(items: seq<(K, V)>, i: nat)
    requires i < |items|
    ensures Keys(Touched(items, i)) == Touched(Keys(items), i)
  {
  }

  lemma KeysOfUse<K, V>(items: seq<(K, V)>, capacity: nat, key: K, value: V)
    ensures Keys(GetOrAdd(items, capacity, key, value)) == Use(Keys(items), capacity, key)
  {
    SamePlace(items, key);
    if Has(items, key) { KeysOfTouched(items, Find(items, key)); }
  }

  lemma KeysOfDelete<K, V>(items: seq<(K, V)>, key: K)
    ensures Keys(Delete(items, key)) == Drop(Keys(items), key)
  {
    SamePlace(items, key);
  }

  lemma KeysOfGet<K, V>(items: seq<(K, V)>, key: K)
    ensures Keys(Get(items, key)) == Look(Keys(items), key)
  {
    SamePlace(items, key);
    if Has(items, key) { KeysOfTouched(items, Find(items, key)); }
  }

  lemma MovedDistinct<T>(s: seq<T>, i: nat)
    requires Distinct(s) && i < |s|
    ensures Distinct(Touched(s, i)) && Distinct(Without(s, i))
    ensures |Touched(s, i)| == |s| && |Without(s, i)| < |s|
  {
    var m, w := Touched(s, i), Without(s, i);
    assert forall k | 0 <= k < |m| :: m[k] == s[if k == 0 then i else if k <= i then k - 1 else k];
    assert forall k | 0 <= k < |w| :: w[k] == s[if k < i then k else k + 1];
  }

  lemma AddedDistinct<T>(s: seq<T>, x: T, n: nat)
    requires Distinct(s) && x !in s && n <= |s|
    ensures Distinct([x] + s[..n])
  {
    var a := [x] + s[..n];
    assert forall k | 1 <= k < |a| :: a[k] == s[k - 1] && a[k] in s;
  }

  lemma KeysStayDistinct<K>(keys: seq<K>, capacity: nat, key: K)
    requires Distinct(keys)
    ensures Distinct(Use(keys, capacity, key)) && Distinct(Drop(keys, key))
    ensures capacity > 0 && |keys| <= capacity ==> |Use(keys, capacity, key)| <= capacity && |Drop(keys, key)| <= capacity
  {
    if key in keys {
      MovedDistinct(keys, Place(keys, key));
    } else {
      assert keys[..|keys|] == keys;
      AddedDistinct(keys, key, if |keys| + 1 > capacity && keys != [] then |keys| - 1 else |keys|);
    }
  }

  // ---- a smaller cache holds a prefix of a larger one ------------------------------------

  lemma TouchedInclusion<T>(small: seq<T>, large: seq<T>, i: nat)
    requires small <= large && i < |small|
    ensures Touched(small, i) <= Touched(large, i) && Without(small, i) <= Without(large, i)
  {
    assert Touched(large, i)[..|small|] == Touched(small, i);
    assert Without(large, i)[..|small| - 1] == Without(small, i);
  }

  lemma BeforeTouched<T>(s: seq<T>, n: nat, i: nat)
    requires n <= i < |s|
    ensures [s[i]] + s[..n] <= Touched(s, i) && s[..n] <= Without(s, i)
  {
    assert Touched(s, i)[..n + 1] == [s[i]] + s[..n];
    assert Without(s, i)[..n] == s[..n];
  }

  lemma BeforeAdded<T>(s: seq<T>, n: nat, m: nat, x: T)
    requires n <= m <= |s|
    ensures [x] + s[..n] <= [x] + s[..m]
  {
    assert ([x] + s[..m])[..n + 1] == [x] + s[..n];
  }

  lemma UseInclusion<K>(small: seq<K>, large: seq<K>, c: nat, d: nat, key: K)
    requires small <= large && 0 < c <= d && |small| <= c && |large| <= d
    ensures Use(small, c, key) <= Use(large, d, key)
  {
    PlaceInPrefix(small, large, key);
    PlaceIsFirst(large, key);
    if key in small {
      TouchedInclusion(small, large, Place(small, key));
    } else {
      var n := if |small| + 1 > c && small != [] then |small| - 1 else |small|;
      assert small[..n] == large[..n];
      if key in large {
        BeforeTouched(large, n, Place(large, key));
      } else {
        BeforeAdded(large, n, if |large| + 1 > d && large != [] then |large| - 1 else |large|, key);
        assert large[..|large|] == large;
      }
    }
  }

  lemma DropInclusion<K>(small: seq<K>, large: seq<K>, key: K)
    requires small <= large
    ensures Drop(small, key) <= Drop(large, key)
  {
    PlaceInPrefix(small, large, key);
    if key in small {
      TouchedInclusion(small, large, Place(small, key));
    } else if key in large {
      BeforeTouched(large, |small|, Place(large, key));
    }
  }

  /** Looking a key up keeps the inclusion exactly if both hit, both miss, or the smaller is empty. */
  lemma LookInclusion<K>(small: seq<K>, large: seq<K>, key: K)
    requires small <= large
    ensures Look(small, key) <= Look(large, key) <==> small == [] || (key in small <==> key in large)
  {
    PlaceInPrefix(small, large, key);
    PlaceIsFirst(large, key);
    if key in small {
      TouchedInclusion(small, large, Place(small, key));
    } else if key in large && small != [] {
      assert Look(large, key)[0] == key && small[0] != key;
    }
  }

  datatype Op<K, V> = UseOp(key: K, value: V) | DeleteOp(key: K)

  function Replay<K(==), V>(ops: seq<Op<K, V>>, capacity: nat): seq<(K, V)> {
    if ops == [] then []
    else
      var before := Replay(ops[..|ops| - 1], capacity);
      match ops[|ops| - 1]
      case UseOp(key, value) => GetOrAdd(before, capacity, key, value)
      case DeleteOp(key) => Delete(before, key)
  }

  /** Main result: after any GetOrAdd and Delete calls, the smaller cache's keys are the first of the larger's. */
  lemma {:induction false} Inclusion<K, V>(ops: seq<Op<K, V>>, c: nat, d: nat)
    requires 0 < c <= d
    ensures Keys(Replay(ops, c)) <= Keys(Replay(ops, d))
    ensures Distinct(Keys(Replay(ops, d))) && |Replay(ops, c)| <= c && |Replay(ops, d)| <= d
  {
    if ops != [] {
      var before, op := ops[..|ops| - 1], ops[|ops| - 1];
      Inclusion(before, c, d);
      Inclusion(before, c, c);
      var small, large := Replay(before, c), Replay(before, d);
      KeysStayDistinct(Keys(small), c, op.key);
      KeysStayDistinct(Keys(large), d, op.key);
      if op.UseOp? {
        KeysOfUse(small, c, op.key, op.value);
        KeysOfUse(large, d, op.key, op.value);
        UseInclusion(Keys(small), Keys(large), c, d, op.key);
      } else {
        KeysOfDelete(small, op.key);
        KeysOfDelete(large, op.key);
        DropInclusion(Keys(small), Keys(large), op.key);
      }
    }
  }

  /** Get is different: it reorders without inserting. */
  lemma GetInclusion<K, V>(small: seq<(K, V)>, large: seq<(K, V)>, key: K)
    requires Keys(small) <= Keys(large)
    ensures Keys(Get(small, key)) <= Keys(Get(large, key)) <==>
            small == [] || (key in Keys(small) <==> key in Keys(large))
  {
    KeysOfGet(small, key);
    KeysOfGet(large, key);
    LookInclusion(Keys(small), Keys(large), key);
  }
}
