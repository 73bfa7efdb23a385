/**
 The event loop's queue (eventloop/queue.go): a circular buffer that drops its
 oldest entry when it is full, proved to be a bounded FIFO. The channel that
 signals readiness is not part of this model.
 */
module RingQueue {
  datatype Option<T> = None | Some(value: T)

  /** The bounded FIFO the queue implements, oldest entry first. */
  function Pushed<T>(s: seq<T>, capacity: nat, x: T): seq<T>
    requires capacity >= 1
  {
    (if |s| >= capacity then s[1..] else s) + [x]
  }

  function PushedAll<T>(s: seq<T>, capacity: nat, xs: seq<T>): seq<T>
    requires capacity >= 1
  {
    if xs == [] then s else Pushed(PushedAll(s, capacity, xs[..|xs| - 1]), capacity, xs[|xs| - 1])
  }

  /** However many entries are pushed, the newest ones are kept, in order. */
  lemma {:induction false} KeepsNewest<T>(s: seq<T>, capacity: nat, xs: seq<T>)
    requires capacity >= 1 && |s| <= capacity
    ensures var all := s + xs;
      PushedAll(s, capacity, xs) == if |all| <= capacity then all else all[|all| - capacity..]
  {
    if xs == [] {
      assert s + xs == s;
    } else {
      KeepsNewest(s, capacity, xs[..|xs| - 1]);
      assert s + xs == s + xs[..|xs| - 1] + [xs[|xs| - 1]];
    }
  }

  /** The entries from head to tail of a circular buffer, both -1 when there are none. */
  ghost function Window<T>(a: seq<T>, head: int, tail: int): seq<T>
    requires (head == -1 && tail == -1) || (0 <= head < |a| && 0 <= tail < |a|)
  {
    if head == -1 then [] else if head <= tail then a[head..tail + 1] else a[head..] + a[..tail + 1]
  }

  function Succ(i: int, n: nat): int {
    if i + 1 == n then 0 else i + 1
  }

  /** Writing after the tail appends an entry, and moves the head on exactly when the buffer was full. */
  lemma PushWindow<T>(a: seq<T>, head: int, tail: int, x: T)
    requires a != [] && ((head == -1 && tail == -1) || (0 <= head < |a| && 0 <= tail < |a|))
    ensures var pos := Succ(tail, |a|);
      var head' := if head == -1 then pos else if pos == head then Succ(head, |a|) else head;
      Window(a[pos := x], head', pos) == Pushed(Window(a, head, tail), |a|, x)
  {
    var pos, s := Succ(tail, |a|), Window(a, head, tail);
    if head == -1 {
      assert Window(a[pos := x], pos, pos) == [x];
    } else if pos == head {
      var head' := Succ(head, |a|);
      assert |s| == |a|;
      assert Window(a[pos := x], head', pos) == s[1..] + [x];
    } else {
      assert |s| < |a|;
      assert Window(a[pos := x], head, pos) == s + [x];
    }
  }

  class Queue<T> {
    const entries: array<T>
    var head: int
    var tail: int

    /** head and tail are both -1 or both indices. */
    ghost predicate Valid()
      reads this
    {
      (head == -1 && tail == -1) || (0 <= head < entries.Length && 0 <= tail < entries.Length)
    }

    ghost function Contents(): seq<T>
      requires Valid()
      reads this, entries
    {
      Window(entries[..], head, tail)
    }

    constructor (capacity: nat, default: T)
      ensures Valid() && fresh(entries) && entries.Length == capacity && Contents() == []
    {
      entries := new T[capacity](_ => default);
      head, tail := -1, -1;
    }

    /** False is the panic of a queue without capacity. */
    method Push(entry: T) returns (ok: bool)
      requires Valid()
      modifies this, entries
      ensures Valid() && (ok <==> entries.Length > 0)
      ensures Contents() == if ok then Pushed(old(Contents()), entries.Length, entry) else old(Contents())
    {
      if entries.Length == 0 {
        return false;
      }
      ok := true;
      PushWindow(entries[..], head, tail, entry);
      var pos := tail + 1;
      if pos == entries.Length {
        pos := 0;
      }
      if pos == head {
        head := head + 1;
        if head == entries.Length {
          head := 0;
        }
      }
      assert old(entries[..])[pos := entry] == entries[..][pos := entry];
      entries[pos] := entry;
      tail := pos;
      if head == -1 {
        head := pos;
      }
    }

    method Pop() returns (entry: Option<T>)
      requires Valid()
      modifies this
      ensures Valid()
      ensures old(Contents()) == [] ==> entry == None && Contents() == []
      ensures old(Contents()) != [] ==> entry == Some(old(Contents())[0]) && Contents() == old(Contents())[1..]
    {
      if head == -1 {
        return None;
      }
      entry := Some(entries[head]);
      if head == tail {
        head, tail := -1, -1;
      } else {
        head := head + 1;
        if head == entries.Length {
          head := 0;
        }
      }
    }

    method Len() returns (n: int)
      requires Valid()
      ensures n == |Contents()| && n <= entries.Length
    {
      if head == -1 {
        return 0;
      }
      if head <= tail {
        return tail - head + 1;
      }
      return entries.Length - head + tail + 1;
    }
  }
}
