/**
 A doubly linked list of elements that can be moved and removed in place, as the caches use
 Go's container/list.
 */
module LinkedList {

  function Without<T>(items: seq<T>, i: nat): seq<T>
    requires i < |items|
  {
    items[..i] + items[i + 1..]
  }

  function Touched<T>(items: seq<T>, i: nat): seq<T>
    requires i < |items|
  {
    [items[i]] + items[..i] + items[i + 1..]
  }

  /** Reordering keeps what is there, and taking one out leaves the rest. */
  lemma TouchedSame<T>(items: seq<T>, i: nat)
    requires i < |items|
    ensures multiset(Touched(items, i)) == multiset(items)
    ensures multiset(Without(items, i)) + multiset{items[i]} == multiset(items)
  {
    assert items == items[..i] + [items[i]] + items[i + 1..];
  }

  lemma WithoutLacks<T>(items: seq<T>, k: nat)
    requires k < |items| && forall i, j | 0 <= i < j < |items| :: items[i] != items[j]
    ensures items[k] !in Without(items, k)
  {
    forall i | 0 <= i < |items| - 1 ensures Without(items, k)[i] != items[k] {
      assert Without(items, k)[i] == items[if i < k then i else i + 1];
    }
  }

  lemma TouchedFront<T>(items: seq<T>, k: nat)
    requires k < |items|
    ensures Touched(items, k) == [items[k]] + Without(items, k) && Touched(items, 0) == items
  {
  }

  class Element<T> {
    const value: T
    var prev: Element?<T>
    var next: Element?<T>

    constructor (value: T)
      ensures this.value == value && prev == null && next == null
    {
      this.value, prev, next := value, null, null;
    }
  }

  /** The values of elements, in their order. */
  ghost function Values<T>(spine: seq<Element<T>>): (r: seq<T>)
    ensures |r| == |spine| && forall i | 0 <= i < |r| :: r[i] == spine[i].value
  {
    seq(|spine|, i requires 0 <= i < |spine| => spine[i].value)
  }

  lemma ValuesTouched<T>(spine: seq<Element<T>>, i: nat)
    requires i < |spine|
    ensures Values(Touched(spine, i)) == Touched(Values(spine), i)
    ensures Values(Without(spine, i)) == Without(Values(spine), i)
  {
  }

  class List<T> {
    var front: Element?<T>
    var back: Element?<T>
    var length: nat
    ghost var Spine: seq<Element<T>>
    ghost var Repr: set<Element<T>>      // every element that was ever in the list

    ghost predicate Valid()
      reads this, Repr
    {
      && (forall i, j {:trigger Apart(i, j)} | 0 <= i < j < |Spine| :: Apart(i, j))
      && (forall i {:trigger Linked(i)} | 0 <= i < |Spine| :: Linked(i))
      && front == At(0) && back == At(|Spine| - 1) && length == |Spine|
    }

    ghost function At(i: int): Element?<T>
      reads this
    {
      if 0 <= i < |Spine| then Spine[i] else null
    }

    ghost predicate Apart(i: int, j: int)
      requires 0 <= i < j < |Spine|
      reads this
    {
      Spine[i] != Spine[j]
    }

    ghost predicate Linked(i: int)
      requires 0 <= i < |Spine|
      reads this, Repr
    {
      Spine[i] in Repr && Spine[i].prev == At(i - 1) && Spine[i].next == At(i + 1)
    }

    lemma AllApart()
      requires Valid()
      ensures forall i, j | 0 <= i < j < |Spine| :: Spine[i] != Spine[j]
    {
      forall i, j | 0 <= i < j < |Spine| ensures Spine[i] != Spine[j] { assert Apart(i, j); }
    }

    lemma ApartFrom(k: nat)
      requires Valid() && k < |Spine|
      ensures forall i | 0 <= i < |Spine| && i != k :: Spine[i] != Spine[k]
    {
      forall i | 0 <= i < |Spine| && i != k ensures Spine[i] != Spine[k] {
        assert if i < k then Apart(i, k) else Apart(k, i);
      }
    }

    constructor ()
      ensures Valid() && Spine == [] && Repr == {}
    {
      front, back, length, Spine, Repr := null, null, 0, [], {};
    }

    /** Puts an element that is in no list first. */
    method PushFront(e: Element<T>)
      requires Valid() && e !in Spine
      modifies this, Repr, e
      ensures Valid() && Repr == old(Repr) + {e} && Spine == [e] + old(Spine)
      ensures Values(Spine) == [e.value] + Values(old(Spine))
    {
      AllApart();
      if front != null { assert Linked(0); }
      e.prev, e.next := null, front;
      if front == null {
        back := e;
      } else {
        front.prev := e;
      }
      front := e;
      length, Spine, Repr := length + 1, [e] + Spine, Repr + {e};
      assert forall i | 1 <= i < |Spine| :: Spine[i] == old(Spine)[i - 1];
      forall i | 0 <= i < |Spine| ensures Linked(i) {
        if i > 0 { assert old(Linked(i - 1)); }
      }
    }

    /** Takes an element out. */
    method Remove(e: Element<T>, ghost k: nat)
      requires Valid() && k < |Spine| && Spine[k] == e
      modifies this, Repr
      ensures Valid() && Spine == Without(old(Spine), k) && Repr == old(Repr)
      ensures Values(Spine) == Without(Values(old(Spine)), k)
    {
      ValuesTouched(Spine, k);
      Unlink(e, k);
    }

    method Unlink(e: Element<T>, ghost k: nat)
      requires Valid() && k < |Spine| && Spine[k] == e
      modifies this, Repr
      ensures Valid() && Spine == Without(old(Spine), k) && Repr == old(Repr)
    {
      ghost var before := Spine;
      ApartFrom(k);
      assert Linked(k);
      if k > 0 {
        ApartFrom(k - 1);
        assert Linked(k - 1);
      }
      if k + 1 < |Spine| {
        ApartFrom(k + 1);
        assert Linked(k + 1);
      }
      var p, n := e.prev, e.next;
      if p == null { front := n; } else { p.next := n; }
      if n == null { back := p; } else { n.prev := p; }
      e.prev, e.next := null, null;
      length, Spine := length - 1, Without(Spine, k);
      assert forall i | 0 <= i < |Spine| :: Spine[i] == before[if i < k then i else i + 1];
      forall i, j | 0 <= i < j < |Spine| ensures Apart(i, j) {
        assert old(Apart(if i < k then i else i + 1, if j < k then j else j + 1));
      }
      forall i | 0 <= i < |Spine| ensures Linked(i) {
        var m := if i < k then i else i + 1;
        assert old(Linked(m)) && before[m] != before[k];
        if m == k - 1 {
          assert before[m] == p && p.next == n;
        } else if m == k + 1 {
          assert before[m] == n && n.prev == p;
        } else {
          assert before[m] != p && before[m] != n;
        }
      }
    }

    lemma FrontIsFirst(k: nat)
      requires Valid() && k < |Spine|
      ensures front == Spine[k] <==> k == 0
    {
      if k > 0 { assert Apart(0, k); }
    }

    method MoveToFront(e: Element<T>, ghost k: nat)
      requires Valid() && k < |Spine| && Spine[k] == e
      modifies this, Repr
      ensures Valid() && Spine == Touched(old(Spine), k) && Repr == old(Repr)
      ensures Values(Spine) == Touched(Values(old(Spine)), k)
    {
      ghost var before := Spine;
      AllApart();
      WithoutLacks(before, k);
      FrontIsFirst(k);
      TouchedFront(before, k);
      ValuesTouched(before, k);
      if front != e {
        assert Linked(k);
        Unlink(e, k);
        PushFront(e);
      }
    }
  }
}
