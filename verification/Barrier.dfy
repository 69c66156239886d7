/** The loss-of-reference barrier and the remark buffers, updated in place by one mutator. */
module Barrier {
  import opened Heap
  import opened Tracer

  /** A thread's local remark buffer. */
  class RemarkBuffer {
    const localRemarkBuffer: array<Block>
    var localRemarkBufferUsage: nat

    /** There is always room for one more block. */
    ghost predicate Valid()
      reads this
    {
      localRemarkBufferUsage < localRemarkBuffer.Length
    }

    ghost function Contents(): seq<Block>
      requires Valid()
      reads this, localRemarkBuffer
    {
      localRemarkBuffer[..localRemarkBufferUsage]
    }

    constructor (size: nat)
      requires size > 0
      ensures Valid() && Contents() == [] && fresh(localRemarkBuffer) && localRemarkBuffer.Length == size
    {
      localRemarkBuffer := new Block[size](_ => 0);
      localRemarkBufferUsage := 0;
    }
  }

  class RemarkQueue {
    var markingInProgress: bool
    var needRemarkQueue: seq<Block>

    constructor ()
      ensures !markingInProgress && needRemarkQueue == []
    {
      markingInProgress, needRemarkQueue := false, [];
    }

    /** `gc_need_remark`: while marking goes on, an unmarked block is marked and buffered behind all that
        this thread has buffered or moved to the queue; in every other case nothing changes. The queue
        grows by whole buffers only. */
    method NeedRemark(marker: Marker, buffer: RemarkBuffer, obj: Ref)
      requires buffer.Valid() && (obj.To? ==> obj.block in marker.markBit)
      modifies this`needRemarkQueue, marker`markBit, buffer, buffer.localRemarkBuffer
      ensures buffer.Valid()
      ensures var remark := obj.To? && markingInProgress && obj.block !in old(marker.Marked());
        && marker.markBit.Keys == old(marker.markBit.Keys)
        && marker.Marked() == old(marker.Marked()) + (if remark then {obj.block} else {})
        && needRemarkQueue + buffer.Contents()
          == old(needRemarkQueue + buffer.Contents()) + (if remark then [obj.block] else [])
      ensures |needRemarkQueue| == |old(needRemarkQueue)|
        || |needRemarkQueue| == |old(needRemarkQueue)| + buffer.localRemarkBuffer.Length
    {
      if obj.Null? || !markingInProgress {
        return;
      }
      var prevMarkBit := marker.markBit[obj.block];
      marker.markBit := marker.markBit[obj.block := marker.gcMarked];
      if prevMarkBit == marker.gcMarked {
        assert marker.Marked() == old(marker.Marked());
        return;
      }
      assert marker.Marked() == old(marker.Marked()) + {obj.block};
      var local := buffer.localRemarkBuffer;
      local[buffer.localRemarkBufferUsage] := obj.block;
      ghost var n := buffer.localRemarkBufferUsage;
      assert local[..n] == old(buffer.Contents());
      assert local[..n + 1] == old(buffer.Contents()) + [obj.block];
      buffer.localRemarkBufferUsage := buffer.localRemarkBufferUsage + 1;
      if buffer.localRemarkBufferUsage == local.Length {
        needRemarkQueue := needRemarkQueue + local[..];
        assert local[..] == local[..n + 1];
        buffer.localRemarkBufferUsage := 0;
      }
    }
  }
}
