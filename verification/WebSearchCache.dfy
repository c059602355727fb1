/**
 The local cache of web search results: an index and a list in order of use, with expiry.

 Models CLIProxyAPI/internal/cache/claude_web_search_result_cache.go in local mode.  A key is
 the hash of session and tool call, taken as injective.
 */
module WebSearchCache {
  import opened Wrappers
  import opened LinkedList

  const DEFAULT_TTL: int := 86_400_000_000_000
  const DEFAULT_LIMIT: int := 1024

  /** What an entry says, as a value. */
  datatype Item = Item(key: string, content: string, ttl: int, expiresAt: int)

  /** What the index has for a key: its place in the list, and the entry kept there. */
  datatype Slot = Slot(element: Element<string>, item: Item)

  type Index = map<string, Slot>

  predicate Expired(item: Item, now: int) {
    now >= item.expiresAt
  }

  /** The items that have not expired, in their order. */
  function Fresh(items: seq<Item>, now: int): seq<Item> {
    if items == [] then []
    else (if Expired(items[0], now) then [] else [items[0]]) + Fresh(items[1..], now)
  }

  lemma {:induction false} FreshMeans(items: seq<Item>, now: int)
    ensures forall x :: x in Fresh(items, now) <==> x in items && !Expired(x, now)
    ensures |Fresh(items, now)| <= |items|
  {
    if items != [] { FreshMeans(items[1..], now); }
  }

  ghost predicate Placed(index: Index, spine: seq<Element<string>>, items: seq<Item>, i: int)
    requires 0 <= i < |spine| == |items|
  {
    && spine[i].value in index && index[spine[i].value] == Slot(spine[i], items[i])
    && items[i].key == spine[i].value
  }

  ghost predicate Listed(index: Index, spine: seq<Element<string>>, k: string)
    requires k in index
  {
    index[k].element in spine && index[k].element.value == k
  }

  /** Index and list hold the same keys, each with its element and its entry. */
  ghost predicate Agree(index: Index, spine: seq<Element<string>>, items: seq<Item>) {
    && |items| == |spine|
    && (forall i {:trigger Placed(index, spine, items, i)} | 0 <= i < |spine| :: Placed(index, spine, items, i))
    && (forall k {:trigger Listed(index, spine, k)} | k in index :: Listed(index, spine, k))
  }

  ghost predicate DistinctElements(spine: seq<Element<string>>) {
    forall i, j | 0 <= i < j < |spine| :: spine[i] != spine[j]
  }

  lemma AgreeAdded(index: Index, spine: seq<Element<string>>, items: seq<Item>, e: Element<string>, item: Item)
    requires Agree(index, spine, items) && e.value !in index && item.key == e.value
    ensures Agree(index[e.value := Slot(e, item)], [e] + spine, [item] + items)
  {
    var after, s, t := index[e.value := Slot(e, item)], [e] + spine, [item] + items;
    forall i | 0 <= i < |s| ensures Placed(after, s, t, i) {
      if i > 0 { assert Placed(index, spine, items, i - 1); }
    }
    forall k | k in after ensures Listed(after, s, k) {
      if k in index { assert Listed(index, spine, k); }
    }
  }

  lemma AgreeRemoved(index: Index, spine: seq<Element<string>>, items: seq<Item>, i: nat)
    requires Agree(index, spine, items) && DistinctElements(spine) && i < |spine|
    ensures Agree(index - {spine[i].value}, Without(spine, i), Without(items, i)) && spine[i].value in index
  {
    var after, s, t := index - {spine[i].value}, Without(spine, i), Without(items, i);
    assert Placed(index, spine, items, i);
    forall j | 0 <= j < |s| ensures Placed(after, s, t, j) {
      assert Placed(index, spine, items, if j < i then j else j + 1);
    }
    forall k | k in after ensures Listed(after, s, k) {
      assert Listed(index, spine, k);
      var j :| 0 <= j < |spine| && spine[j] == index[k].element;
      assert s[if j < i then j else j - 1] == spine[j];
    }
  }

  lemma AgreeRenewed(index: Index, spine: seq<Element<string>>, items: seq<Item>, i: nat, item: Item)
    requires Agree(index, spine, items) && DistinctElements(spine) && i < |spine| && item.key == spine[i].value
    ensures Agree(index[spine[i].value := Slot(spine[i], item)], spine, items[i := item])
  {
    var after, t := index[spine[i].value := Slot(spine[i], item)], items[i := item];
    assert Placed(index, spine, items, i);
    forall j | 0 <= j < |spine| ensures Placed(after, spine, t, j) { assert Placed(index, spine, items, j); }
    forall k | k in after ensures Listed(after, spine, k) { assert Listed(index, spine, k); }
  }

  lemma AgreeTouched(index: Index, spine: seq<Element<string>>, items: seq<Item>, i: nat)
    requires Agree(index, spine, items) && i < |spine|
    ensures Agree(index, Touched(spine, i), Touched(items, i))
  {
    var s, t := Touched(spine, i), Touched(items, i);
    forall j | 0 <= j < |s| ensures Placed(index, s, t, j) {
      assert Placed(index, spine, items, if j == 0 then i else if j <= i then j - 1 else j);
    }
    forall k | k in index ensures Listed(index, s, k) {
      assert Listed(index, spine, k);
      var j :| 0 <= j < |spine| && spine[j] == index[k].element;
      assert s[if j == i then 0 else if j < i then j + 1 else j] == spine[j];
    }
  }

  lemma FreshStep(items: seq<Item>, k: nat, now: int)
    requires 0 < k <= |items|
    ensures Fresh(items[k - 1..], now) ==
      (if Expired(items[k - 1], now) then [] else [items[k - 1]]) + Fresh(items[k..], now)
  {
    assert items[k - 1..][0] == items[k - 1] && items[k - 1..][1..] == items[k..];
  }

  function Find(items: seq<Item>, key: string): (i: nat)
    ensures i <= |items|
  {
    if items == [] || items[0].key == key then 0 else 1 + Find(items[1..], key)
  }

  lemma {:induction false} FindIsFirst(items: seq<Item>, key: string)
    ensures Find(items, key) < |items| ==> items[Find(items, key)].key == key
    ensures forall j | 0 <= j < Find(items, key) :: items[j].key != key
  {
    if items != [] && items[0].key != key { FindIsFirst(items[1..], key); }
  }

  /** The index finds a key exactly where it first stands in the list. */
  lemma Located(index: Index, spine: seq<Element<string>>, items: seq<Item>, key: string)
    requires Agree(index, spine, items)
    ensures key in index <==> Find(items, key) < |spine|
    ensures key in index ==> index[key] == Slot(spine[Find(items, key)], items[Find(items, key)])
    ensures key in index ==> index[key].element.value == key
  {
    FindIsFirst(items, key);
    var i := Find(items, key);
    if i < |spine| { assert Placed(index, spine, items, i); }
    if key in index {
      assert Listed(index, spine, key);
      var j :| 0 <= j < |spine| && spine[j] == index[key].element;
      assert Placed(index, spine, items, j);
    }
  }

  /** The cache after storing a result. */
  function Stored(items: seq<Item>, item: Item, limit: nat, now: int): seq<Item> {
    Cut([item] + Room(items, item.key, limit, now), limit)
  }

  function Cut(items: seq<Item>, limit: nat): seq<Item> {
    if |items| > limit then items[..limit] else items
  }

  lemma WithoutKey(items: seq<Item>, key: string, x: Item)
    requires Find(items, key) < |items| && x in items && x.key != key
    ensures x in Without(items, Find(items, key))
  {
    var i := Find(items, key);
    FindIsFirst(items, key);
    var j :| 0 <= j < |items| && items[j] == x;
    assert Without(items, i)[if j < i then j else j - 1] == x;
  }

  /** What room is made: everything that is there, or if that is too much what has not expired. */
  function Room(items: seq<Item>, key: string, limit: nat, now: int): seq<Item> {
    var i := Find(items, key);
    var rest := if i < |items| then Without(items, i) else items;
    if |rest| >= limit then Fresh(rest, now) else rest
  }

  lemma RoomMeans(items: seq<Item>, key: string, limit: nat, now: int, x: Item)
    ensures x in Room(items, key, limit, now) ==> x in items
    ensures x in items && x.key != key && x !in Room(items, key, limit, now) ==> Expired(x, now)
    ensures |Room(items, key, limit, now)| >= limit && x in Room(items, key, limit, now) ==> !Expired(x, now)
  {
    var i := Find(items, key);
    var rest := if i < |items| then Without(items, i) else items;
    FreshMeans(rest, now);
    if x in items && x.key != key && i < |items| { WithoutKey(items, key, x); }
  }

  /** Storing keeps the bound and the new item, and a live one goes only if all that stay are live. */
  lemma StoredMeans(items: seq<Item>, item: Item, limit: nat, now: int, x: Item, y: Item)
    requires limit > 0
    ensures var r := Stored(items, item, limit, now);
      && 0 < |r| <= limit && r[0] == item && (y in r[1..] ==> y in items)
      && (x in items && x.key != item.key && x !in r && !Expired(x, now) && y in r[1..] ==> !Expired(y, now))
  {
    var room, r := Room(items, item.key, limit, now), Stored(items, item, limit, now);
    RoomMeans(items, item.key, limit, now, x);
    RoomMeans(items, item.key, limit, now, y);
    assert r[1..] <= room;
    if |room| + 1 <= limit { assert r[1..] == room; }
  }

  lemma PurgeStep(items: seq<Item>, now: int, k: nat, current: seq<Item>)
    requires 0 < k <= |items| && current == items[..k] + Fresh(items[k..], now)
    ensures current[k - 1] == items[k - 1]
    ensures (if Expired(items[k - 1], now) then Without(current, k - 1) else current) ==
            items[..k - 1] + Fresh(items[k - 1..], now)
  {
    FreshStep(items, k, now);
    assert items[..k] == items[..k - 1] + [items[k - 1]];
  }

  /** The lifetime a lookup gives a result: the one asked for, else the one it had. */
  function Renewed(item: Item, ttl: Option<int>, now: int): Item {
    var own := if ttl.Some? && ttl.value > 0 then ttl.value else item.ttl;
    item.(ttl := own, expiresAt := now + if own <= 0 then DEFAULT_TTL else own)
  }

  function Looked(items: seq<Item>, key: string, ttl: Option<int>, now: int): seq<Item> {
    var i := Find(items, key);
    if i == |items| then items
    else if Expired(items[i], now) then Without(items, i)
    else Touched(items[i := Renewed(items[i], ttl, now)], i)
  }

  function Answer(items: seq<Item>, key: string, now: int): Option<string> {
    var i := Find(items, key);
    if i == |items| || Expired(items[i], now) then None else Some(items[i].content)
  }

  lemma LastOut(items: seq<Item>, n: nat)
    requires 0 < n <= |items|
    ensures Without(items[..n], n - 1) == items[..n - 1]
  {
  }

  class Cache {
    const order: List<string>
    var index: Index
    ghost var Items: seq<Item>      // the cached results, most recently used first

    ghost predicate Valid()
      reads this, order, order.Repr
    {
      order.Valid() && Agree(index, order.Spine, Items)
    }

    constructor ()
      ensures Valid() && Items == [] && fresh(order)
    {
      order := new List();
      index, Items := map[], [];
    }

    /** Takes an element out of the index and the list. */
    method Drop(e: Element<string>, ghost i: nat)
      requires Valid() && i < |order.Spine| && order.Spine[i] == e
      modifies this, order, order.Repr
      ensures Valid() && order.Spine == Without(old(order.Spine), i) && order.Repr == old(order.Repr)
      ensures Items == Without(old(Items), i) && index == old(index) - {e.value}
    {
      order.AllApart();
      AgreeRemoved(index, order.Spine, Items, i);
      index, Items := index - {e.value}, Without(Items, i);
      order.Remove(e, i);
    }

    /** One step of the purge: the element before is read first, then this one may go. */
    method DropIfExpired(element: Element<string>, ghost i: nat, now: int) returns (prev: Element?<string>)
      requires Valid() && i < |order.Spine| && order.Spine[i] == element
      modifies this, order, order.Repr
      ensures Valid() && i <= |order.Spine| && prev == order.At(i - 1) && order.Repr == old(order.Repr)
      ensures Items == (if Expired(old(Items)[i], now) then Without(old(Items), i) else old(Items))
      ensures index.Keys <= old(index).Keys
    {
      assert order.Linked(i);
      assert Placed(index, order.Spine, Items, i);
      prev := element.prev;
      if Expired(index[element.value].item, now) { Drop(element, i); }
    }

    /** Walks from the back and removes while it goes. */
    method PurgeExpired(now: int)
      requires Valid()
      modifies this, order, order.Repr
      ensures Valid() && Items == Fresh(old(Items), now) && order.Repr == old(order.Repr)
      ensures index.Keys <= old(index).Keys
    {
      var element := order.back;
      ghost var items, k: int := Items, |order.Spine|;
      while element != null
        invariant Valid() && 0 <= k <= |order.Spine| && k <= |items| && element == order.At(k - 1)
        invariant order.Repr == old(order.Repr) && index.Keys <= old(index).Keys
        invariant Items == items[..k] + Fresh(items[k..], now)
        decreases k
      {
        PurgeStep(items, now, k, Items);
        element := DropIfExpired(element, k - 1, now);
        k := k - 1;
      }
    }

    /** Drops entries from the back until the limit holds. */
    method TrimTo(limit: nat)
      requires Valid()
      modifies this, order, order.Repr
      ensures Valid() && order.Repr == old(order.Repr)
      ensures Items == Cut(old(Items), limit)
    {
      ghost var items := Items;
      while order.length > limit
        invariant Valid() && order.Repr == old(order.Repr)
        invariant order.length <= |items| && Items == items[..order.length]
        invariant if |items| <= limit then order.length == |items| else order.length >= limit
        decreases order.length
      {
        var oldest := order.back;
        LastOut(items, order.length);
        Drop(oldest, order.length - 1);
      }
    }

    method MakeRoom(key: string, limit: nat, now: int)
      requires Valid()
      modifies this, order, order.Repr
      ensures Valid() && order.Repr == old(order.Repr) && key !in index
      ensures Items == Room(old(Items), key, limit, now)
    {
      order.AllApart();
      Located(index, order.Spine, Items, key);
      if key in index { Drop(index[key].element, Find(Items, key)); }
      if order.length >= limit { PurgeExpired(now); }
    }

    method AddFront(key: string, item: Item)
      requires Valid() && key !in index && item.key == key
      modifies this, order, order.Repr
      ensures Valid() && fresh(order.Repr - old(order.Repr)) && Items == [item] + old(Items)
    {
      order.AllApart();
      var e := new Element(key);
      AgreeAdded(index, order.Spine, Items, e, item);
      index, Items := index[key := Slot(e, item)], [item] + Items;
      order.PushFront(e);
    }

    /**
     Stores a result in front: what was there under its key goes, and if there are still too
     many, what expired goes, and then the least recently used.
     */
    method Store(key: string, content: string, ttl: int, limit: int, now: int) returns (ok: bool)
      requires Valid()
      modifies this, order, order.Repr
      ensures Valid() && fresh(order.Repr - old(order.Repr)) && (ok <==> key != "" && content != "")
      ensures !ok ==> Items == old(Items)
      ensures ok ==> var t := if ttl <= 0 then DEFAULT_TTL else ttl;
        Items == Stored(old(Items), Item(key, content, t, now + t), if limit <= 0 then DEFAULT_LIMIT else limit, now)
    {
      if key == "" || content == "" { return false; }
      var t, bound := if ttl <= 0 then DEFAULT_TTL else ttl, if limit <= 0 then DEFAULT_LIMIT else limit;
      StoreItem(Item(key, content, t, now + t), bound, now);
      return true;
    }

    method StoreItem(item: Item, limit: nat, now: int)
      requires Valid()
      modifies this, order, order.Repr
      ensures Valid() && fresh(order.Repr - old(order.Repr)) && Items == Stored(old(Items), item, limit, now)
    {
      MakeRoom(item.key, limit, now);
      AddFront(item.key, item);
      TrimTo(limit);
    }

    method Renew(e: Element<string>, ghost i: nat, item: Item)
      requires Valid() && i < |order.Spine| && order.Spine[i] == e && item.key == e.value
      modifies this
      ensures Valid() && Items == old(Items)[i := item]
    {
      order.AllApart();
      AgreeRenewed(index, order.Spine, Items, i, item);
      index, Items := index[e.value := Slot(e, item)], Items[i := item];
    }

    method MoveToFront(e: Element<string>, ghost i: nat)
      requires Valid() && i < |order.Spine| && order.Spine[i] == e
      modifies this`Items, order, order.Repr
      ensures Valid() && order.Repr == old(order.Repr) && Items == Touched(old(Items), i)
    {
      AgreeTouched(index, order.Spine, Items, i);
      Items := Touched(Items, i);
      order.MoveToFront(e, i);
    }

    /** Looks a result up: an expired one goes, a live one lives longer and moves to the front. */
    method Get(key: string, ttl: Option<int>, now: int) returns (r: Option<string>)
      requires Valid()
      modifies this, order, order.Repr
      ensures Valid() && order.Repr == old(order.Repr)
      ensures Items == Looked(old(Items), key, ttl, now)
      ensures r == Answer(old(Items), key, now)
    {
      order.AllApart();
      Located(index, order.Spine, Items, key);
      if key !in index { return None; }
      var slot := index[key];
      ghost var i := Find(Items, key);
      assert Placed(index, order.Spine, Items, i);
      if now >= slot.item.expiresAt {
        Drop(slot.element, i);
        return None;
      }
      Refresh(slot, i, ttl, now);
      return Some(slot.item.content);
    }

    method Refresh(slot: Slot, ghost i: nat, ttl: Option<int>, now: int)
      requires Valid() && i < |order.Spine| && order.Spine[i] == slot.element
      requires Items[i] == slot.item && slot.item.key == slot.element.value
      modifies this, order, order.Repr
      ensures Valid() && order.Repr == old(order.Repr)
      ensures Items == Touched(old(Items)[i := Renewed(slot.item, ttl, now)], i)
    {
      Renew(slot.element, i, Renewed(slot.item, ttl, now));
      MoveToFront(slot.element, i);
    }
  }
}
