/**
 * A first-in first-out queue that holds at most `capacity` elements: adding
 * to a full queue first drops the oldest element.
 */
module BoundedQueue {
  import opened Wrappers

  /** The contents after adding `e`: the oldest element goes first when the queue is full. */
  function Pushed<E>(items: seq<E>, e: E, capacity: int): (r: seq<E>)
    requires capacity >= 1
  {
    if |items| >= capacity then items[1..] + [e] else items + [e]
  }

  /** The contents after adding every element of `xs` in order. */
  function PushedAll<E>(items: seq<E>, xs: seq<E>, capacity: int): seq<E>
    requires capacity >= 1
    decreases |xs|
  {
    if xs == [] then items else PushedAll(Pushed(items, xs[0], capacity), xs[1..], capacity)
  }

  /** The newest `capacity` elements of `s`, oldest first. */
  function Newest<E>(s: seq<E>, capacity: nat): (r: seq<E>)
    ensures |r| == if |s| <= capacity then |s| else capacity
  {
    if |s| <= capacity then s else s[|s| - capacity..]
  }

  /** An add keeps the queue within its capacity, and the added element is the newest. */
  lemma PushedBounded<E>(items: seq<E>, e: E, capacity: int)
    requires capacity >= 1 && |items| <= capacity
    ensures |Pushed(items, e, capacity)| <= capacity
    ensures |Pushed(items, e, capacity)| == if |items| < capacity then |items| + 1 else capacity
    ensures Pushed(items, e, capacity)[|Pushed(items, e, capacity)| - 1] == e
  {
  }

  /**
   * Adding to a queue within its capacity keeps exactly the newest
   * `capacity` of the old contents followed by the new element.
   */
  lemma PushedIsNewest<E>(items: seq<E>, e: E, capacity: int)
    requires capacity >= 1 && |items| <= capacity
    ensures Pushed(items, e, capacity) == Newest(items + [e], capacity)
  {
    if |items| >= capacity {
      assert (items + [e])[|items| + 1 - capacity..] == items[1..] + [e];
    }
  }

  /**
   * However many elements are added, the queue holds the newest
   * `capacity` of everything added, in insertion order.
   */
  lemma {:induction false} PushedAllIsNewest<E>(items: seq<E>, xs: seq<E>, capacity: int)
    requires capacity >= 1 && |items| <= capacity
    ensures PushedAll(items, xs, capacity) == Newest(items + xs, capacity)
    decreases |xs|
  {
    if xs != [] {
      var items' := Pushed(items, xs[0], capacity);
      PushedIsNewest(items, xs[0], capacity);
      PushedBounded(items, xs[0], capacity);
      calc {
        PushedAll(items, xs, capacity);
        PushedAll(items', xs[1..], capacity);
        { PushedAllIsNewest(items', xs[1..], capacity); }
        Newest(items' + xs[1..], capacity);
        { NewestOfNewest(items + [xs[0]], xs[1..], capacity); }
        Newest(items + [xs[0]] + xs[1..], capacity);
        { assert items + [xs[0]] + xs[1..] == items + xs; }
        Newest(items + xs, capacity);
      }
    }
  }

  /** Trimming early does not change the newest elements of a longer sequence. */
  lemma NewestOfNewest<E>(s: seq<E>, t: seq<E>, capacity: nat)
    ensures Newest(Newest(s, capacity) + t, capacity) == Newest(s + t, capacity)
  {
    if |s| > capacity {
      var s' := s[|s| - capacity..];
      if |s' + t| > capacity {
        assert (s' + t)[|s' + t| - capacity..] == (s + t)[|s + t| - capacity..];
      } else {
        assert s' + t == (s + t)[|s + t| - capacity..];
      }
    }
  }

  class LimitedSizeQueue<E> {
    const capacity: int
    /** The elements, oldest first. */
    var items: seq<E>

    /**
     * The queue never holds more than `capacity` elements; without room
     * for one element it stays empty.
     */
    ghost predicate Valid()
      reads this
    {
      if capacity >= 1 then |items| <= capacity else items == []
    }

    constructor (capacity: int)
      ensures this.capacity == capacity && items == [] && Valid()
    {
      this.capacity := capacity;
      items := [];
    }

    /**
     * Appends `e`, first dropping the oldest element if the queue is full.
     * With a capacity below 1 the queue counts as full while empty, and
     * dropping from it raises `NoSuchElementException`, reported as
     * `thrown`; nothing changes then. Otherwise the result is `true`.
     */
    method Add(e: E) returns (added: bool, thrown: bool)
      requires Valid()
      modifies this`items
      ensures Valid()
      ensures thrown <==> capacity < 1
      ensures thrown ==> items == old(items)
      ensures !thrown ==> items == Pushed(old(items), e, capacity) && added
    {
      if |items| >= capacity {
        if items == [] {
          return false, true;
        }
        items := items[1..];
      }
      items := items + [e];
      added, thrown := true, false;
    }

    /** Removes and returns the oldest element; `None` on an empty queue. */
    method Poll() returns (head: Option<E>)
      requires Valid()
      modifies this`items
      ensures Valid()
      ensures old(items) == [] ==> head.None? && items == []
      ensures old(items) != [] ==> head == Some(old(items)[0]) && items == old(items)[1..]
    {
      if items == [] {
        return None;
      }
      head := Some(items[0]);
      items := items[1..];
    }
  }
}
