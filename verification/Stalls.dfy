/** When replication to one follower gets anywhere. A follower that has compacted past the next index
    cannot compare terms there (internal/raft/log.go), and the leader's search then never ends, whether it
    probes or ships a snapshot (internal/engine/replicator_loop.go). */
module Stalls {
  import opened RaftLog
  import opened Consensus
  import opened Ledger
  import opened Backtrack

  /** A round that gets somewhere: the batch is stored, or a snapshot newer than the follower's is installed. */
  predicate Ends(leader: LogState, follower: LogState, next: int, writes: nat) {
    if next < leader.firstIndex then leader.lastIncludedIndex > follower.lastIncludedIndex
    else Answer(follower, ProbeAt(leader, next), writes).ok
  }

  /** The next index after a round that does not: a probe is rejected, a snapshot the follower already
      covers is acknowledged. */
  function Onward(leader: LogState, follower: LogState, next: int, writes: nat): int {
    if next < leader.firstIndex then
      (if next < leader.lastIncludedIndex + 1 then leader.lastIncludedIndex + 1 else next)
    else Backtracked(next, Answer(follower, ProbeAt(leader, next), writes).conflictIndex)
  }

  function NextAfter(leader: LogState, follower: LogState, next: int, writes: nat, rounds: nat): int
    decreases rounds
  {
    if rounds == 0 then next
    else NextAfter(leader, follower, Onward(leader, follower, next, writes), writes, rounds - 1)
  }

  /** Some round of the search gets somewhere. */
  ghost predicate CatchesUp(leader: LogState, follower: LogState, next: int, writes: nat) {
    exists k: nat :: Ends(leader, follower, NextAfter(leader, follower, next, writes, k), writes)
  }

  /** A round that does not get anywhere changes nothing about the follower. */
  lemma NothingChanges(leader: LogState, full: Log, follower: LogState, held: Log, next: int, writes: nat)
    requires Related(leader, full, follower, held) && leader.firstIndex <= next <= |full| + 1 && writes > |full|
    requires !Ends(leader, follower, next, writes)
    ensures Answer(follower, ProbeAt(leader, next), writes).log == follower
  {
    hide Answer, ProbeAt, Related;
    if next <= follower.lastIncludedIndex {
      RefusedBelowBoundary(leader, full, follower, held, next, writes);
    } else {
      ProbeRejected(leader, full, follower, held, next, writes);
    }
  }

  /** At or below the follower's boundary every probe is refused, and the next index goes down by one. */
  lemma RefusedBelowBoundary(leader: LogState, full: Log, follower: LogState, held: Log, next: int, writes: nat)
    requires Related(leader, full, follower, held) && leader.firstIndex <= next <= follower.lastIncludedIndex
    ensures var r := Answer(follower, ProbeAt(leader, next), writes);
            && !r.ok && r.log == follower
            && Backtracked(next, r.conflictIndex) == if next == 1 then 1 else next - 1
  {
    var prev := next - 1;
    AccessorsAgree(leader, full, prev);
    EntriesAgree(leader, full, next);
    LastAgrees(follower, held);
    var req := ProbeAt(leader, next);
    assert req.prevLogIndex == prev && req.entries == full[prev..] && req.entries != [];
    assert Contiguous(req.entries, prev);
    if prev == 0 {
      BelowBoundaryRefused(follower, held, 0, req.entries, writes);
      hide SpliceEntries, Represents, Related, ProbeAt;
    } else {
      assert req.prevLogTerm == full[prev - 1].term >= 1 && follower.TermAt(prev) == 0;
      hide SpliceEntries, Represents, Related, ProbeAt, LogState.TermAt, LogState.LastIndex;
    }
  }

  lemma {:induction false} NeverAbove(leader: LogState, full: Log, follower: LogState, held: Log, next: int,
                                      writes: nat, k: nat)
    requires Related(leader, full, follower, held) && 1 <= next <= follower.lastIncludedIndex
    requires leader.lastIncludedIndex < follower.lastIncludedIndex
    ensures 1 <= NextAfter(leader, follower, next, writes, k) <= follower.lastIncludedIndex
    ensures !Ends(leader, follower, NextAfter(leader, follower, next, writes, k), writes)
    decreases k
  {
    RelatedBounds(leader, full, follower, held);
    hide Related, Answer, ProbeAt, Backtracked;
    if next >= leader.firstIndex {
      RefusedBelowBoundary(leader, full, follower, held, next, writes);
    }
    if k > 0 {
      NeverAbove(leader, full, follower, held, Onward(leader, follower, next, writes), writes, k - 1);
    }
  }

  lemma RelatedBounds(leader: LogState, full: Log, follower: LogState, held: Log)
    requires Related(leader, full, follower, held)
    ensures leader.firstIndex == leader.lastIncludedIndex + 1 >= 1
    ensures 0 <= follower.lastIncludedIndex <= |held| && follower.lastIncludedIndex <= |full|
  {
  }

  /** From above the boundary the search ends within the follower's patience. */
  lemma {:induction false} EndsAbove(leader: LogState, full: Log, follower: LogState, held: Log, next: int, writes: nat)
    returns (k: nat)
    requires Related(leader, full, follower, held) && writes > |full|
    requires follower.lastIncludedIndex < next <= |full| + 1
    ensures Ends(leader, follower, NextAfter(leader, follower, next, writes, k), writes)
    decreases next
  {
    hide Related, Ends, NextAfter, Onward;
    if Ends(leader, follower, next, writes) {
      k := 0;
      Rounds(leader, follower, next, writes, 0);
    } else {
      Rejected(leader, full, follower, held, next, writes);
      var rest := EndsAbove(leader, full, follower, held, Onward(leader, follower, next, writes), writes);
      k := 1 + rest;
      Rounds(leader, follower, next, writes, rest);
    }
  }

  lemma Rounds(leader: LogState, follower: LogState, next: int, writes: nat, k: nat)
    ensures NextAfter(leader, follower, next, writes, 0) == next
    ensures NextAfter(leader, follower, next, writes, 1 + k)
            == NextAfter(leader, follower, Onward(leader, follower, next, writes), writes, k)
  {
    hide Onward;
  }

  lemma Rejected(leader: LogState, full: Log, follower: LogState, held: Log, next: int, writes: nat)
    requires Related(leader, full, follower, held) && writes > |full|
    requires follower.lastIncludedIndex < next <= |full| + 1 && !Ends(leader, follower, next, writes)
    ensures 0 <= follower.lastIncludedIndex < Onward(leader, follower, next, writes) < next
  {
    RelatedBounds(leader, full, follower, held);
    hide Related, Answer, ProbeAt, Backtracked;
    ProbeRejected(leader, full, follower, held, next, writes);
  }

  /** Replication to a follower gets somewhere exactly when the next index is above what the follower has
      compacted, or the leader itself has compacted as far. */
  lemma CatchesUpExactlyWhen(leader: LogState, full: Log, follower: LogState, held: Log, next: int, writes: nat)
    requires Related(leader, full, follower, held) && 1 <= next <= |full| + 1 && writes > |full|
    ensures CatchesUp(leader, follower, next, writes)
            <==> next > follower.lastIncludedIndex || leader.lastIncludedIndex >= follower.lastIncludedIndex
  {
    hide *;
    RelatedBounds(leader, full, follower, held);
    var b := follower.lastIncludedIndex;
    if next > b {
      var k := EndsAbove(leader, full, follower, held, next, writes);
      CatchesUpAfter(leader, follower, next, writes, k);
    } else if leader.lastIncludedIndex > b {
      SnapshotEnds(leader, follower, next, writes);
      CatchesUpAfter(leader, follower, next, writes, 0);
    } else if leader.lastIncludedIndex == b {
      var k := EndsAbove(leader, full, follower, held, b + 1, writes);
      SnapshotMoves(leader, follower, next, writes, k);
      CatchesUpAfter(leader, follower, next, writes, k + 1);
    } else {
      NeverCatchesUp(leader, full, follower, held, next, writes);
    }
  }

  lemma CatchesUpAfter(leader: LogState, follower: LogState, next: int, writes: nat, k: nat)
    requires Ends(leader, follower, NextAfter(leader, follower, next, writes, k), writes)
    ensures CatchesUp(leader, follower, next, writes)
  {
    hide Ends, NextAfter;
  }

  lemma NeverCatchesUp(leader: LogState, full: Log, follower: LogState, held: Log, next: int, writes: nat)
    requires Related(leader, full, follower, held) && 1 <= next <= follower.lastIncludedIndex
    requires leader.lastIncludedIndex < follower.lastIncludedIndex
    ensures !CatchesUp(leader, follower, next, writes)
  {
    hide Related, Ends, NextAfter;
    forall k: nat
      ensures !Ends(leader, follower, NextAfter(leader, follower, next, writes, k), writes)
    {
      NeverAbove(leader, full, follower, held, next, writes, k);
    }
  }

  lemma SnapshotEnds(leader: LogState, follower: LogState, next: int, writes: nat)
    requires next < leader.firstIndex && leader.lastIncludedIndex > follower.lastIncludedIndex
    ensures Ends(leader, follower, NextAfter(leader, follower, next, writes, 0), writes)
  {
  }

  lemma SnapshotMoves(leader: LogState, follower: LogState, next: int, writes: nat, k: nat)
    requires next < leader.firstIndex == leader.lastIncludedIndex + 1
    ensures NextAfter(leader, follower, next, writes, k + 1)
            == NextAfter(leader, follower, leader.lastIncludedIndex + 1, writes, k)
  {
    hide Ends;
  }

  /** The failing input: a follower that stored both entries and compacted them, while the reply that
      would have said so was lost. It holds the leader's whole log and is never told apart from one that
      holds nothing. */
  lemma StalledForEver(leader: LogState, follower: LogState, a: LogEntry, b: LogEntry, writes: nat)
    requires a.index == 1 && b.index == 2 && 1 <= a.term <= b.term && writes > 2
    requires leader == LogState([a, b], 3, 1, 0, 0) && follower == LogState([], 3, 3, 2, b.term)
    ensures Related(leader, [a, b], follower, [a, b]) && !CatchesUp(leader, follower, 1, writes)
  {
    var full := [a, b];
    assert full[0..] == full && full[2..] == [] && full[..2] == full;
    assert Related(leader, full, follower, full);
    hide *;
    CatchesUpExactlyWhen(leader, full, follower, full, 1, writes);
  }
}
