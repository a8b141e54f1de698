/** The bounded call stack of src/stack.rs: a `Vec` that refuses to grow past a fixed capacity. */
module BoundedStack {
  import opened Wrappers

  /** The error `push` reports on a full stack. */
  datatype StackOverflowError = StackOverflowError

  /** The value of a stack: its capacity and its buffer, bottom first. */
  datatype StackState<T> = StackState(capacity: nat, buffer: seq<T>) {

    /** The capacity bound that `push` maintains. */
    predicate Valid() { |buffer| <= capacity }

    /** `push`: refuses when the buffer length equals the capacity, otherwise appends
        and reports the new length. Yields the new stack and the result. */
    function Push(item: T): (StackState<T>, Result<nat, StackOverflowError>)
    {
      if |buffer| == capacity then (this, Err(StackOverflowError))
      else (StackState(capacity, buffer + [item]), Ok(|buffer| + 1))
    }

    /** `pop`: `Vec::pop`, which takes the last element, or gives `None` on an empty buffer. */
    function Pop(): (StackState<T>, Option<T>)
    {
      if buffer == [] then (this, None)
      else (StackState(capacity, buffer[..|buffer| - 1]), Some(buffer[|buffer| - 1]))
    }
  }

  /** The stack `with_capacity` builds. */
  function Empty<T>(capacity: nat): StackState<T> { StackState(capacity, []) }

  lemma EmptyIsEmpty<T>(capacity: nat)
    ensures Empty<T>(capacity).Valid()
    ensures Empty<T>(capacity).buffer == [] && Empty<T>(capacity).capacity == capacity
  {
  }

  /** A full stack refuses the push and keeps its buffer. */
  lemma PushFull<T>(s: StackState<T>, item: T)
    requires |s.buffer| == s.capacity
    ensures s.Push(item).1 == Err(StackOverflowError)
    ensures s.Push(item).0 == s
  {
  }

  /** A stack with room puts `item` on top, keeps what was below and reports the new length. */
  lemma PushRoom<T>(s: StackState<T>, item: T)
    requires |s.buffer| != s.capacity
    ensures s.Push(item).1 == Ok(|s.buffer| + 1)
    ensures s.Push(item).0.buffer == s.buffer + [item]
    ensures s.Push(item).0.capacity == s.capacity
  {
  }

  /** `pop` gives the top and removes exactly it; on an empty stack it gives `None` and changes nothing. */
  lemma PopTop<T>(s: StackState<T>)
    ensures s.buffer == [] ==> s.Pop() == (s, None)
    ensures s.buffer != [] ==> s.Pop().1 == Some(s.buffer[|s.buffer| - 1])
                               && s.Pop().0.buffer + [s.buffer[|s.buffer| - 1]] == s.buffer
                               && s.Pop().0.capacity == s.capacity
  {
  }

  /** Both operations keep the buffer within the capacity. */
  lemma OperationsKeepValid<T>(s: StackState<T>, item: T)
    requires s.Valid()
    ensures s.Push(item).0.Valid()
    ensures s.Pop().0.Valid()
  {
  }

  /** A successful push followed by a pop gives back the pushed item and the previous stack. */
  lemma PushThenPop<T>(s: StackState<T>, item: T)
    requires s.Push(item).1.Ok?
    ensures s.Push(item).0.Pop() == (s, Some(item))
  {
    assert (s.buffer + [item])[..|s.buffer|] == s.buffer;
  }

  /** The stack object that the processor owns. */
  class Stack<T> {
    var capacity: nat
    var buffer: seq<T>

    ghost predicate Valid()
      reads this
    {
      |buffer| <= capacity
    }

    /** The value this object holds. */
    function Value(): StackState<T>
      reads this
    {
      StackState(capacity, buffer)
    }

    constructor WithCapacity(capacity: nat)
      ensures Valid()
      ensures Value() == Empty(capacity)
      ensures this.capacity == capacity && buffer == []
    {
      this.capacity := capacity;
      buffer := [];
    }

    method Push(item: T) returns (r: Result<nat, StackOverflowError>)
      modifies this
      ensures old(Valid()) ==> Valid()
      ensures (Value(), r) == old(Value()).Push(item)
      ensures capacity == old(capacity)
      ensures r.Err? <==> old(|buffer|) == capacity
      ensures r.Err? ==> buffer == old(buffer)
      ensures r.Ok? ==> buffer == old(buffer) + [item] && r.value == |buffer|
    {
      if |buffer| == capacity {
        r := Err(StackOverflowError);
      } else {
        buffer := buffer + [item];
        r := Ok(|buffer|);
      }
    }

    method Pop() returns (r: Option<T>)
      modifies this
      ensures old(Valid()) ==> Valid()
      ensures (Value(), r) == old(Value()).Pop()
      ensures capacity == old(capacity)
      ensures r.None? <==> old(buffer) == []
      ensures r.None? ==> buffer == old(buffer)
      ensures r.Some? ==> old(buffer) == buffer + [r.value]
    {
      if buffer == [] {
        r := None;
      } else {
        r := Some(buffer[|buffer| - 1]);
        buffer := buffer[..|buffer| - 1];
      }
    }
  }
}
