/** The tracker as the program keeps it: one mutable state per partition, in a map. */
module OffsetTracking {
  import opened Types
  import opened Offsets
  import opened OffsetLaws

  class PartitionState {
    var committedOffset: int
    var pendingOffsets: set<int>
    var failedOffsets: set<int>
    var lastFailureReason: Option<FailureReason>
    var hasTerminal: bool

    ghost function View(): Cursor
      reads this
    {
      Cursor(committedOffset, pendingOffsets, failedOffsets, lastFailureReason, hasTerminal)
    }

    constructor ()
      ensures View() == FRESH
    {
      committedOffset := -1;
      pendingOffsets := {};
      failedOffsets := {};
      lastFailureReason := None;
      hasTerminal := false;
    }

    method Ack(offset: int)
      modifies this
      ensures View() == AckCursor(old(View()), offset)
    {
      if committedOffset == -1 {
        committedOffset := offset - 1;
      }
      pendingOffsets := pendingOffsets + {offset};
      failedOffsets := failedOffsets - {offset};
      ghost var start := View();
      while committedOffset + 1 in pendingOffsets
        invariant Advance(View()) == Advance(start)
        decreases |pendingOffsets|
      {
        var next := committedOffset + 1;
        pendingOffsets := pendingOffsets - {next};
        committedOffset := next;
      }
    }

    method MarkFailed(offset: int)
      modifies this
      ensures View() == old(View()).(pending := old(pendingOffsets) - {offset}, failed := old(failedOffsets) + {offset})
    {
      pendingOffsets := pendingOffsets - {offset};
      failedOffsets := failedOffsets + {offset};
    }
  }

  class OffsetTracker {
    var partitions: map<TopicPartition, PartitionState>
    ghost var view: Tracker

    /** No two partitions share a state, and `view` is the value of them all. */
    ghost predicate Valid()
      reads this, partitions.Values
    {
      && (forall p, q :: p in partitions && q in partitions && partitions[p] == partitions[q] ==> p == q)
      && partitions.Keys == view.Keys
      && (forall p :: p in partitions ==> partitions[p].View() == view[p])
    }

    constructor ()
      ensures Valid() && view == map[] && partitions == map[]
    {
      partitions := map[];
      view := map[];
    }

    /** The tracker refuses (by a panic) to ack a negative offset. */
    method Ack(home: TopicPartition, offset: int)
      requires Valid() && offset >= 0
      modifies this, partitions.Values
      ensures Valid() && fresh(partitions.Values - old(partitions.Values))
      ensures view == StepTracker(old(view), home, Acked(offset))
    {
      if home !in partitions {
        var created := new PartitionState();
        partitions := partitions[home := created];
      }
      var state := partitions[home];
      state.Ack(offset);
      view := StepTracker(view, home, Acked(offset));
    }

    /** A failure on a partition that never acked anything is dropped. */
    method MarkFailed(home: TopicPartition, offset: int, reason: FailureReason)
      requires Valid()
      modifies this`view, partitions.Values
      ensures Valid() && partitions == old(partitions)
      ensures view == StepTracker(old(view), home, Failed(offset, reason))
    {
      if home in partitions {
        var state := partitions[home];
        state.MarkFailed(offset);
        state.lastFailureReason := Some(reason);
        if reason.Category() == TerminalCategory {
          state.hasTerminal := true;
        }
      }
      view := StepTracker(view, home, Failed(offset, reason));
    }

    method HighestContiguous(home: TopicPartition) returns (offset: Option<int>)
      requires Valid()
      ensures offset == if home in view then Some(view[home].committed) else None
    {
      if home in partitions {
        offset := Some(partitions[home].committedOffset);
      } else {
        offset := None;
      }
    }

    method CommittedOffset(home: TopicPartition) returns (offset: int)
      requires Valid()
      ensures offset == if home in view then view[home].committed else -1
    {
      offset := if home in partitions then partitions[home].committedOffset else -1;
    }

    method MayCommit(home: TopicPartition) returns (may: bool)
      requires Valid()
      ensures may <==> ShouldCommit(Entry(view, home))
    {
      if home !in partitions {
        return false;
      }
      var state := partitions[home];
      if state.hasTerminal {
        return false;
      }
      may := state.pendingOffsets != {} || state.committedOffset >= 0;
    }

    /** Every registered partition once, in no particular order. */
    method AllPartitions() returns (all: seq<TopicPartition>)
      requires Valid()
      ensures forall p :: p in all <==> p in view
      ensures forall i, j :: 0 <= i < j < |all| ==> all[i] != all[j]
    {
      all := [];
      var rest := partitions.Keys;
      while rest != {}
        invariant forall p :: p in partitions <==> p in all || p in rest
        invariant forall p :: p in all ==> p !in rest
        invariant forall i, j :: 0 <= i < j < |all| ==> all[i] != all[j]
        decreases rest
      {
        var p :| p in rest;
        all := all + [p];
        rest := rest - {p};
      }
    }

    /** The offsets handed to `store_offset` at shutdown: the watermark of every partition
        that may be committed, once each, if a consumer was attached at all. */
    method GracefulShutdown(attached: bool) returns (stored: seq<Place>)
      requires Valid()
      ensures !attached ==> stored == []
      ensures attached ==> forall p, o :: (p, o) in stored <==> ShouldCommit(Entry(view, p)) && o == view[p].committed
      ensures forall i, j :: 0 <= i < j < |stored| ==> stored[i].0 != stored[j].0
    {
      var all := AllPartitions();
      stored := [];
      if !attached {
        return;
      }
      for i := 0 to |all|
        invariant forall p, o :: (p, o) in stored <==> p in all[..i] && ShouldCommit(Entry(view, p)) && o == view[p].committed
        invariant forall j, k :: 0 <= j < k < |stored| ==> stored[j].0 != stored[k].0
      {
        assert all[..i + 1] == all[..i] + [all[i]];
        var may := MayCommit(all[i]);
        var offset := HighestContiguous(all[i]);
        if may && offset.Some? {
          forall k | 0 <= k < |stored| ensures stored[k].0 != all[i] {
            var (p, o) := stored[k];
            assert stored[k] == (p, o) && (p, o) in stored;
          }
          stored := stored + [(all[i], offset.value)];
        }
      }
      assert all[..|all|] == all;
    }
  }
}
