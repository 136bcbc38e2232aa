/** The bounded containers of the kernel objects as they are in memory: wait lists, and the
    byte rings behind ports and buffers. Both behave as plain sequences. */
module Buffers {
  import opened KernelState
  import opened ReadyQueues
  import opened Arithmetic

  /** A FIFO list of waiting processes, kept dense from index 0. */
  class WaitList {
    const items: array<Pid>
    var count: nat

    ghost predicate Valid()
      reads this
    {
      items.Length == WAITLIST_MAX && count <= items.Length
    }

    ghost function Contents(): seq<Pid>
      requires Valid()
      reads this, items
    {
      items[..count]
    }

    constructor ()
      ensures Valid() && Contents() == [] && fresh(items)
    {
      items := new Pid[WAITLIST_MAX](_ => 0);
      count := 0;
    }

    method Push(id: Pid) returns (st: Status)
      requires Valid()
      modifies this, items
      ensures Valid()
      ensures st == if |old(Contents())| < WAITLIST_MAX then Ok else PoolFull
      ensures Contents() == if st == Ok then old(Contents()) + [id] else old(Contents())
    {
      st := PoolFull;
      if count < WAITLIST_MAX {
        items[count] := id;
        count := count + 1;
        st := Ok;
      }
    }

    /** Move everything behind entry `at` one place towards the front. */
    method CloseGap(at: nat)
      requires Valid() && at < count
      modifies this, items
      ensures Valid() && Contents() == old(Contents()[..at] + Contents()[at + 1..])
    {
      var scan := at;
      while scan + 1 < count
        invariant at <= scan < count && Valid() && count == old(count)
        invariant items[..at] == old(items[..at])
        invariant forall j :: at <= j < scan ==> items[j] == old(items[j + 1])
        invariant forall j :: scan < j < count ==> items[j] == old(items[j])
      {
        items[scan] := items[scan + 1];
        scan := scan + 1;
      }
      count := count - 1;
    }

    method PopFront() returns (st: Status, id: Pid)
      requires Valid()
      modifies this, items
      ensures Valid()
      ensures st == if old(Contents()) == [] then QueueEmpty else Ok
      ensures st == Ok ==> id == old(Contents())[0] && Contents() == old(Contents())[1..]
      ensures st != Ok ==> Contents() == old(Contents())
    {
      st, id := QueueEmpty, 0;
      if count > 0 {
        id := items[0];
        CloseGap(0);
        st := Ok;
      }
    }

    method Remove(id: Pid) returns (removed: bool)
      requires Valid()
      modifies this, items
      ensures Valid()
      ensures removed <==> id in old(Contents())
      ensures Contents() == KernelState.Remove(old(Contents()), id)
    {
      var scan := 0;
      while scan < count && items[scan] != id
        invariant scan <= count && forall j :: 0 <= j < scan ==> items[j] != id
      {
        scan := scan + 1;
      }
      RemoveFirst(Contents(), id, scan);
      removed := scan < count;
      if removed { CloseGap(scan); }
    }
  }

  // ---------------------------------------------------------------- message rings

  lemma Fits(i: nat, n: nat, size: nat)
    requires i < n
    ensures i * size + size <= n * size
  {
    assert (i + 1) * size <= n * size;
  }

  lemma Apart(i: nat, j: nat, size: nat)
    requires i < j
    ensures i * size + size <= j * size
  {
    Fits(i, j, size);
  }

  /** A ring of fixed-size messages in one block of bytes. */
  class Fifo {
    const buffer: array<Byte>
    const messageSize: nat
    const capacity: nat
    var head: nat
    var count: nat

    ghost predicate Valid()
      reads this
    {
      messageSize > 0 && capacity > 0 && messageSize * capacity <= buffer.Length && head < capacity && count <= capacity
    }

    /** The slot of the j-th message. */
    ghost function Place(j: nat): nat
      requires Valid()
      reads this
    {
      if head + j < capacity then head + j else head + j - capacity
    }

    /** The bytes of slot i. */
    ghost function At(i: nat): (m: Message)
      requires Valid() && i < capacity
      reads this, buffer
      ensures |m| == messageSize
    {
      Fits(i, capacity, messageSize);
      buffer[i * messageSize..i * messageSize + messageSize]
    }

    ghost function Contents(): (s: seq<Message>)
      requires Valid()
      reads this, buffer
      ensures |s| == count && forall j :: 0 <= j < count ==> s[j] == At(Place(j))
    {
      seq(count, j requires 0 <= j < count && Valid() reads this, buffer => At(Place(j)))
    }

    constructor (backing: array<Byte>, size: nat, slots: nat)
      requires size > 0 && slots > 0 && size * slots <= backing.Length
      ensures Valid() && Contents() == [] && buffer == backing && messageSize == size && capacity == slots
    {
      buffer, messageSize, capacity, head, count := backing, size, slots, 0, 0;
    }

    method Push(message: Message) returns (st: Status)
      requires Valid()
      modifies this, buffer
      ensures Valid()
      ensures st == if |message| != messageSize then InvalidArg else if |old(Contents())| < capacity then Ok
              else QueueFull
      ensures Contents() == if st == Ok then old(Contents()) + [message] else old(Contents())
    {
      st := InvalidArg;
      if |message| == messageSize {
        st := QueueFull;
        if count < capacity {
          WrapIs(head + count, capacity);
          var tail := (head + count) % capacity;
          ghost var before := Contents();
          Store(tail, message);
          forall j | 0 <= j < count ensures At(Place(j)) == before[j] {}
          count := count + 1;
          assert Contents() == before + [message];
          st := Ok;
        }
      }
    }

    /** Copy a message into slot i; no other slot changes. */
    method Store(i: nat, message: Message)
      requires Valid() && i < capacity && |message| == messageSize
      modifies buffer
      ensures At(i) == message
      ensures forall j :: 0 <= j < capacity && j != i ==> At(j) == old(At(j))
    {
      Fits(i, capacity, messageSize);
      var base, b := i * messageSize, 0;
      while b < messageSize
        invariant b <= messageSize
        invariant buffer[base..base + b] == message[..b]
        invariant forall x :: 0 <= x < buffer.Length && !(base <= x < base + messageSize) ==>
                  buffer[x] == old(buffer[x])
      {
        buffer[base + b] := message[b];
        b := b + 1;
      }
      forall j | 0 <= j < capacity && j != i ensures At(j) == old(At(j)) {
        Fits(j, capacity, messageSize);
        if j < i { Apart(j, i, messageSize); } else { Apart(i, j, messageSize); }
      }
    }

    /** Copy the message of slot i out. */
    method Load(i: nat) returns (message: Message)
      requires Valid() && i < capacity
      ensures message == At(i)
    {
      Fits(i, capacity, messageSize);
      var base, b := i * messageSize, 0;
      message := [];
      while b < messageSize
        invariant b <= messageSize && message == buffer[base..base + b]
      {
        message := message + [buffer[base + b]];
        b := b + 1;
      }
    }

    /** Copy the oldest message out, if the receiver's buffer is large enough. */
    method Pop(size: nat) returns (st: Status, message: Message)
      requires Valid()
      modifies this
      ensures Valid()
      ensures st == if size < messageSize then InvalidArg else if old(Contents()) == [] then QueueEmpty else Ok
      ensures st == Ok ==> message == old(Contents())[0] && Contents() == old(Contents())[1..]
      ensures st != Ok ==> Contents() == old(Contents())
    {
      st, message := InvalidArg, [];
      if size >= messageSize {
        st := QueueEmpty;
        if count > 0 {
          message := Load(head);
          WrapIs(head + 1, capacity);
          head := (head + 1) % capacity;
          count := count - 1;
          st := Ok;
        }
      }
    }
  }
}
