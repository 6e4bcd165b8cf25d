/** The inline reply batch of src/ws/server/types.rs. */
module FrameBatch {
  import opened Prelude
  import opened Wire

  const CAPACITY: nat := 4

  class WsServerFrameBatch {
    const frames: array<Option<Frame>>
    var len: nat

    ghost predicate Valid()
      reads this, frames
    {
      && frames.Length == CAPACITY && len <= CAPACITY
      && forall i :: 0 <= i < len ==> frames[i].Some?
    }

    ghost function Contents(): seq<Frame>
      requires Valid()
      reads this, frames
    {
      Values(frames[..len])
    }

    constructor ()
      ensures Valid() && fresh(frames) && Contents() == []
    {
      frames := new Option<Frame>[CAPACITY](_ => None);
      len := 0;
    }

    /** A full batch hands the frame back. */
    method Push(frame: Frame) returns (refused: Option<Frame>)
      requires Valid()
      modifies this`len, frames
      ensures Valid()
      ensures refused == if |old(Contents())| < CAPACITY then None else Some(frame)
      ensures Contents() == if refused.None? then old(Contents()) + [frame] else old(Contents())
    {
      if len >= CAPACITY {
        return Some(frame);
      }
      frames[len] := Some(frame);
      len := len + 1;
      return None;
    }

    /** Takes every frame out, oldest first, and leaves the slots empty. */
    method Drain() returns (taken: seq<Frame>)
      requires Valid()
      modifies this`len, frames
      ensures Valid() && Contents() == [] && taken == old(Contents())
      ensures forall i :: 0 <= i < |taken| ==> frames[i].None?
    {
      var n := len;
      len := 0;
      taken := [];
      ghost var before := frames[..];
      for i := 0 to n
        invariant len == 0
        invariant taken == Values(before[..i])
        invariant forall k :: 0 <= k < i ==> frames[k].None?
        invariant forall k :: i <= k < CAPACITY ==> frames[k] == before[k]
      {
        taken := taken + [frames[i].value];
        frames[i] := None;
        assert before[..i + 1][..i] == before[..i];
      }
    }

    /** `from_iter`: the first frames that fit, in order. */
    static method FromIter(source: seq<Frame>) returns (batch: WsServerFrameBatch)
      ensures fresh(batch) && fresh(batch.frames) && batch.Valid()
      ensures batch.Contents() == source[..Min(|source|, CAPACITY)]
    {
      batch := new WsServerFrameBatch();
      var i := 0;
      while i < |source|
        invariant fresh(batch) && fresh(batch.frames) && batch.Valid()
        invariant 0 <= i <= |source| && i <= CAPACITY && batch.Contents() == source[..i]
      {
        var refused := batch.Push(source[i]);
        if refused.Some? { break; }
        i := i + 1;
      }
    }
  }

  ghost function Values(slots: seq<Option<Frame>>): seq<Frame>
    requires forall i :: 0 <= i < |slots| ==> slots[i].Some?
  {
    seq(|slots|, i requires 0 <= i < |slots| => slots[i].value)
  }
}
