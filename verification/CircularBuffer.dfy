/** The fixed-capacity buffer of src/core/circular_buffer.rs against its list specification. */
module CircularBuffers {
  import opened Prelude

  /** One push: drop the oldest when full; a buffer of capacity 0 stores nothing. */
  function Pushed<T>(buffer: seq<T>, capacity: nat, item: T): seq<T> {
    if capacity == 0 then buffer
    else if |buffer| == capacity then buffer[1..] + [item]
    else buffer + [item]
  }

  function PushedAll<T>(buffer: seq<T>, capacity: nat, items: seq<T>): seq<T> {
    if items == [] then buffer
    else Pushed(PushedAll(buffer, capacity, items[..|items| - 1]), capacity, items[|items| - 1])
  }

  function Latest<T>(items: seq<T>, n: nat): seq<T> {
    items[|items| - Min(n, |items|)..]
  }

  /** After any pushes the buffer holds the latest min(capacity, n) items, in order. */
  lemma {:induction false} PushesKeepLatest<T>(capacity: nat, items: seq<T>)
    ensures PushedAll([], capacity, items) == Latest(items, capacity)
  {
    if items != [] {
      PushesKeepLatest(capacity, items[..|items| - 1]);
    }
  }

  // ---- A predicate with state, as `FnMut` allows ----

  datatype Sieve<T, S> = Sieve(kept: seq<T>, state: S)

  /** Ask the predicate once about each element, in order, and keep what it accepts. */
  function Sifted<T, S>(items: seq<T>, f: (S, T) -> (S, bool), s: S): (r: Sieve<T, S>)
    ensures |r.kept| <= |items|
  {
    if items == [] then Sieve([], s)
    else
      var before := Sifted(items[..|items| - 1], f, s);
      var answer := f(before.state, items[|items| - 1]);
      Sieve(if answer.1 then before.kept + [items[|items| - 1]] else before.kept, answer.0)
  }

  function Filter<T>(items: seq<T>, p: T -> bool): seq<T> {
    if items == [] then []
    else if p(items[0]) then [items[0]] + Filter(items[1..], p)
    else Filter(items[1..], p)
  }

  lemma {:induction false} FilterLast<T>(items: seq<T>, p: T -> bool, x: T)
    ensures Filter(items + [x], p) == Filter(items, p) + (if p(x) then [x] else [])
  {
    if items != [] {
      assert (items + [x])[1..] == items[1..] + [x];
      FilterLast(items[1..], p, x);
    }
  }

  /** With a stateless predicate, sifting is the stable filter. */
  lemma {:induction false} SiftedIsFilter<T>(items: seq<T>, p: T -> bool)
    ensures Sifted(items, (u: (), x: T) => ((), p(x)), ()).kept == Filter(items, p)
  {
    if items != [] {
      var n := |items| - 1;
      SiftedIsFilter(items[..n], p);
      FilterLast(items[..n], p, items[n]);
      assert items == items[..n] + [items[n]];
    }
  }

  /** Where `item` first occurs. */
  function FirstIndex<T(==)>(items: seq<T>, item: T): (i: nat)
    ensures i <= |items| && item !in items[..i]
    ensures i < |items| ==> items[i] == item
  {
    if items == [] || items[0] == item then 0
    else
      var i := FirstIndex(items[1..], item) + 1;
      assert items[..i] == [items[0]] + items[1..][..i - 1];
      i
  }

  /** `items` without position `i`; the last element takes its place. */
  function SwapRemoved<T>(items: seq<T>, i: nat): seq<T>
    requires i < |items|
  {
    items[i := items[|items| - 1]][..|items| - 1]
  }

  lemma SwapRemovedTakesOne<T>(items: seq<T>, i: nat)
    requires i < |items|
    ensures multiset(SwapRemoved(items, i)) + multiset{items[i]} == multiset(items)
  {
    var n := |items| - 1;
    var swapped := items[i := items[n]][n := items[i]];
    assert swapped[..n] == SwapRemoved(items, i);
    assert swapped == swapped[..n] + [items[i]];
    assert multiset(swapped) == multiset(items);
  }

  class CircularBuffer<T(==)> {
    var buffer: seq<T>
    const capacity: nat

    ghost predicate Valid()
      reads this
    {
      |buffer| <= capacity
    }

    constructor (capacity: nat)
      ensures Valid() && buffer == [] && this.capacity == capacity
    {
      this.capacity := capacity;
      buffer := [];
    }

    method Push(item: T)
      requires Valid()
      modifies this
      ensures Valid() && buffer == Pushed(old(buffer), capacity, item)
    {
      if capacity == 0 {
        return;
      }
      if |buffer| == capacity {
        buffer := buffer[1..];
      }
      buffer := buffer + [item];
    }

    method Clear()
      modifies this
      ensures Valid() && buffer == []
    {
      buffer := [];
    }

    method Swap(i: nat, j: nat)
      requires i < |buffer| && j < |buffer|
      modifies this
      ensures buffer == old(buffer[i := buffer[j]][j := buffer[i]])
    {
      buffer := buffer[i := buffer[j]][j := buffer[i]];
    }

    method PopBack(index: nat) returns (r: Option<T>)
      requires Valid()
      modifies this
      ensures Valid()
      ensures r == if index < |old(buffer)| then Some(old(buffer)[index]) else None
      ensures buffer == if index < |old(buffer)| then SwapRemoved(old(buffer), index) else old(buffer)
      ensures multiset(buffer) + (if r.Some? then multiset{r.value} else multiset{}) == multiset(old(buffer))
    {
      if index >= |buffer| {
        return None;
      }
      SwapRemovedTakesOne(buffer, index);
      var last := |buffer| - 1;
      Swap(index, last);
      r := Some(buffer[last]);
      buffer := buffer[..last];
    }

    /** Take out the first occurrence, if there is one. */
    method Remove(item: T) returns (r: Option<T>)
      requires Valid()
      modifies this
      ensures Valid()
      ensures r == if item in old(buffer) then Some(item) else None
      ensures buffer == if item in old(buffer) then SwapRemoved(old(buffer), FirstIndex(old(buffer), item))
                        else old(buffer)
      ensures multiset(buffer) + (if r.Some? then multiset{item} else multiset{}) == multiset(old(buffer))
    {
      var index := FirstIndex(buffer, item);
      assert index < |buffer| <==> item in buffer by {
        assert buffer[..|buffer|] == buffer;
      }
      if index < |buffer| {
        r := PopBack(index);
      } else {
        r := None;
      }
    }

    /** In place: move each kept element down over the gap, then cut the tail. */
    method Retain<S>(f: (S, T) -> (S, bool), s0: S) returns (s: S)
      requires Valid()
      modifies this
      ensures Valid() && Sieve(buffer, s) == Sifted(old(buffer), f, s0)
    {
      var len := |buffer|;
      var del := 0;
      s := s0;
      for i := 0 to len
        invariant |buffer| == len && 0 <= del <= i
        invariant buffer[i..] == old(buffer)[i..]
        invariant Sieve(buffer[..i - del], s) == Sifted(old(buffer)[..i], f, s0)
      {
        assert old(buffer)[..i + 1][..i] == old(buffer)[..i];
        assert buffer[i] == buffer[i..][0] == old(buffer)[i];
        var answer := f(s, buffer[i]);
        s := answer.0;
        ghost var was := buffer;
        if !answer.1 {
          del := del + 1;
        } else if del > 0 {
          Swap(i - del, i);
        }
        assert buffer[i + 1..] == was[i..][1..];
        assert answer.1 ==> buffer[..i + 1 - del] == was[..i - del] + [was[i]];
      }
      assert old(buffer)[..len] == old(buffer);
      if del > 0 {
        buffer := buffer[..len - del];
      } else {
        assert buffer[..len] == buffer;
      }
    }

    /** The last `n` elements as one slice; `split` is where the deque's storage
        wraps. A run across the wrap is refused although it exists. */
    function Last(n: nat, split: nat): (r: Option<seq<T>>)
      requires Valid() && split <= |buffer|
      reads this
      ensures r.Some? ==> r.value == Latest(buffer, n)
      ensures r.Some? <==> 0 < n <= |buffer| && (split == |buffer| || split <= |buffer| - n)
    {
      var len := |buffer|;
      if n == 0 || n > len then None
      else
        var first, second := buffer[..split], buffer[split..];
        var start := len - n;
        if second == [] then
          Some(first[start..])
        else if start >= |first| then
          assert second[start - |first|..] == buffer[start..];
          Some(second[start - |first|..])
        else None
    }
  }
}
