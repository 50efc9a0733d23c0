/** The singly linked list of threads/list.cc, with its two end pointers. */
module LinkedList {
  import opened Options

  /** The list as it is read: items with their keys, front first. */
  type Items<T> = seq<(T, int)>

  /** SortedInsert: before the first element with a larger key, and so after those with the same. */
  function Inserted<T>(q: Items<T>, item: T, key: int): Items<T> {
    if q == [] then [(item, key)]
    else if key < q[0].1 then [(item, key)] + q
    else [q[0]] + Inserted(q[1..], item, key)
  }

  ghost predicate Sorted<T>(q: Items<T>) {
    forall i, j :: 0 <= i < j < |q| ==> q[i].1 <= q[j].1
  }

  /** Where SortedInsert puts a new element. */
  function Place<T>(q: Items<T>, key: int): (i: nat)
    ensures i <= |q| && (forall k :: 0 <= k < i ==> q[k].1 <= key) && (i < |q| ==> key < q[i].1)
  {
    if q == [] || key < q[0].1 then 0 else 1 + Place(q[1..], key)
  }

  lemma {:induction false} InsertedAt<T>(q: Items<T>, item: T, key: int)
    ensures Inserted(q, item, key) == q[..Place(q, key)] + [(item, key)] + q[Place(q, key)..]
  {
    if q != [] && !(key < q[0].1) {
      InsertedAt(q[1..], item, key);
      var i := Place(q[1..], key);
      assert q[..i + 1] == [q[0]] + q[1..][..i] && q[i + 1..] == q[1..][i..];
    }
  }

  lemma PlaceIs<T>(q: Items<T>, key: int, i: nat)
    requires i <= |q| && (forall k :: 0 <= k < i ==> q[k].1 <= key) && (i < |q| ==> key < q[i].1)
    ensures Place(q, key) == i
  {
    hide Place;
    var p := Place(q, key);
    assert p < |q| ==> key < q[p].1;
    assert i < |q| ==> key < q[i].1;
  }

  lemma SplicedSorted<T>(q: Items<T>, i: nat, x: (T, int))
    requires Sorted(q) && i <= |q| && (forall k :: 0 <= k < i ==> q[k].1 <= x.1) && (i < |q| ==> x.1 < q[i].1)
    ensures Sorted(q[..i] + [x] + q[i..])
    ensures forall k :: 0 <= k < |q| ==> (k < i <==> q[k].1 <= x.1)
  {
    forall k | i <= k < |q| ensures x.1 < q[k].1 { assert q[i].1 <= q[k].1; }
  }

  lemma SplicedSame<T>(q: Items<T>, i: nat, x: (T, int))
    requires i <= |q|
    ensures multiset(q[..i] + [x] + q[i..]) == multiset(q) + multiset{x}
  {
    assert q == q[..i] + q[i..];
  }

  /** Inserting into a sorted list keeps it sorted, adds just this element, and puts it after every
      element with the same key. */
  lemma InsertedSorted<T>(q: Items<T>, item: T, key: int)
    requires Sorted(q)
    ensures Sorted(Inserted(q, item, key))
    ensures multiset(Inserted(q, item, key)) == multiset(q) + multiset{(item, key)}
    ensures forall k :: 0 <= k < |q| ==> (k < Place(q, key) <==> q[k].1 <= key)
  {
    hide Sorted, Inserted;
    InsertedAt(q, item, key);
    SplicedSorted(q, Place(q, key), (item, key));
    SplicedSame(q, Place(q, key), (item, key));
  }

  class Element<T> {
    const item: T
    const key: int
    var next: Element?<T>

    constructor (item: T, key: int)
      ensures this.item == item && this.key == key && next == null
    {
      this.item, this.key, next := item, key, null;
    }
  }

  class List<T> {
    var first: Element?<T>
    var last: Element?<T>
    ghost var spine: seq<Element<T>>

    ghost predicate Valid()
      reads this, spine
    {
      && (forall i, j :: 0 <= i < j < |spine| ==> spine[i] != spine[j])
      && (if |spine| == 0 then first == null && last == null
          else first == spine[0] && last == spine[|spine| - 1] && last.next == null)
      && (forall i :: 0 <= i < |spine| - 1 ==> spine[i].next == spine[i + 1])
    }

    ghost function Contents(): (q: Items<T>)
      reads this, spine
      ensures |q| == |spine|
    {
      seq(|spine|, i requires 0 <= i < |spine| reads this, spine => (spine[i].item, spine[i].key))
    }

    constructor ()
      ensures Valid() && Contents() == [] && spine == []
    {
      first, last, spine := null, null, [];
    }

    method IsEmpty() returns (empty: bool)
      requires Valid()
      ensures empty == (Contents() == [])
    {
      empty := first == null;
    }

    method Append(item: T)
      requires Valid()
      modifies this, spine
      ensures Valid() && fresh(set e | e in spine && e !in old(spine))
      ensures Contents() == old(Contents()) + [(item, 0)]
    {
      AppendKeyed(item, 0);
    }

    /** What Append and SortedInsert do when the element goes last. */
    method AppendKeyed(item: T, key: int)
      requires Valid()
      modifies this, spine
      ensures Valid() && fresh(set e | e in spine && e !in old(spine))
      ensures Contents() == old(Contents()) + [(item, key)]
    {
      var element := new Element(item, key);
      if first == null {
        first, last := element, element;
      } else {
        last.next := element;
        last := element;
      }
      spine := spine + [element];
      assert Contents() == old(Contents()) + [(item, key)];
    }

    method Prepend(item: T)
      requires Valid()
      modifies this, spine
      ensures Valid() && fresh(set e | e in spine && e !in old(spine))
      ensures Contents() == [(item, 0)] + old(Contents())
    {
      PrependKeyed(item, 0);
    }

    method PrependKeyed(item: T, key: int)
      requires Valid()
      modifies this, spine
      ensures Valid() && fresh(set e | e in spine && e !in old(spine))
      ensures Contents() == [(item, key)] + old(Contents())
    {
      var element := new Element(item, key);
      if first == null {
        first, last := element, element;
      } else {
        element.next := first;
        first := element;
      }
      spine := [element] + spine;
      assert Contents() == [(item, key)] + old(Contents());
    }

    method SortedInsert(item: T, key: int)
      requires Valid()
      modifies this, spine
      ensures Valid() && fresh(set e | e in spine && e !in old(spine))
      ensures Contents() == Inserted(old(Contents()), item, key)
    {
      ghost var q := Contents();
      InsertedAt(q, item, key);
      if first == null || key < first.key {
        PrependKeyed(item, key);
        assert q[..0] == [] && q[0..] == q;
        return;
      }
      var ptr := first;
      ghost var i := 0;
      while ptr.next != null
        invariant Valid() && spine == old(spine) && Contents() == q
        invariant 0 <= i < |spine| && ptr == spine[i] && ptr.next == (if i + 1 < |spine| then spine[i + 1] else null)
        invariant forall k :: 0 <= k <= i ==> q[k].1 <= key
        decreases |spine| - i
      {
        assert i < |spine| - 1 && ptr.next == spine[i + 1];
        assert q[i + 1] == (ptr.next.item, ptr.next.key);
        if key < ptr.next.key {
          PlaceIs(q, key, i + 1);
          InsertAfter(ptr, i, item, key);
          return;
        }
        ptr := ptr.next;
        i := i + 1;
      }
      PlaceIs(q, key, |q|);
      assert q[..|q|] == q && q[|q|..] == [];
      AppendKeyed(item, key);
    }

    /** Link a new element in after element i, which is not the last. */
    method InsertAfter(ptr: Element<T>, ghost i: nat, item: T, key: int)
      requires Valid() && i < |spine| - 1 && ptr == spine[i]
      modifies this, spine
      ensures Valid() && fresh(set e | e in spine && e !in old(spine))
      ensures Contents() == old(Contents())[..i + 1] + [(item, key)] + old(Contents())[i + 1..]
    {
      var element := new Element(item, key);
      element.next := ptr.next;
      ptr.next := element;
      spine := spine[..i + 1] + [element] + spine[i + 1..];
      assert Contents() == old(Contents())[..i + 1] + [(item, key)] + old(Contents())[i + 1..];
    }

    /** The front element and its key; None for an empty list. Remove is the same without the key. */
    method SortedRemove() returns (r: Option<(T, int)>)
      requires Valid()
      modifies this
      ensures Valid() && (forall e :: e in spine ==> e in old(spine))
      ensures if old(Contents()) == [] then r == None && Contents() == []
              else r == Some(old(Contents())[0]) && Contents() == old(Contents())[1..]
    {
      if first == null { return None; }
      r := Some((first.item, first.key));
      if first == last {
        assert |spine| == 1;
        first, last := null, null;
      } else {
        first := first.next;
      }
      spine := spine[1..];
      assert Contents() == old(Contents())[1..];
    }

    method Remove() returns (r: Option<T>)
      requires Valid()
      modifies this
      ensures Valid() && (forall e :: e in spine ==> e in old(spine))
      ensures if old(Contents()) == [] then r == None && Contents() == []
              else r == Some(old(Contents())[0].0) && Contents() == old(Contents())[1..]
    {
      var front := SortedRemove();
      r := if front.None? then None else Some(front.value.0);
    }
  }
}
