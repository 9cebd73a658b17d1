/** The loops of internal/engine/engine.go that drive the state machine, on the objects. */
module EngineLoops {
  import opened Store
  import opened Values = RaftLog
  import opened Consensus
  import opened Ledger
  import opened Cluster
  import DurableLog
  import NodeObject

  /** What the command at index k answers when everything below it has been applied. */
  function OutcomeAt(ttl: int, full: Log, k: int): Outcome
    requires 1 <= k <= |full|
  {
    Apply(Fold(ttl, full[..k - 1]), ttl, k, full[k - 1].command).1
  }

  /** Index k cannot be applied: compacted away, its command not decodable, or refused. */
  predicate Stuck(ttl: int, full: Log, base: int, decodes: LogEntry -> bool, k: int) {
    k <= base || k > |full| || k < 1 || !decodes(full[k - 1]) || OutcomeAt(ttl, full, k) != Applied
  }

  /** One iteration: apply the next entry and only then count it. */
  method ApplyNext(node: NodeObject.RaftNode, log: DurableLog.RaftLog, sm: MemoryStateMachine,
                   decodes: LogEntry -> bool, ghost full: Log)
    returns (ok: bool)
    requires Represents(log.State(), full) && 0 <= node.lastApplied <= |full|
    requires sm.State() == Fold(sm.sessionTTL, full[..node.lastApplied])
    modifies node`lastApplied, sm`data, sm`sessions, sm`now, sm`appliesSinceSweep
    ensures ok <==> !Stuck(sm.sessionTTL, full, log.lastIncludedIndex, decodes, old(node.lastApplied) + 1)
    ensures ok ==> node.lastApplied == old(node.lastApplied) + 1 <= |full|
                   && sm.State() == Fold(sm.sessionTTL, full[..node.lastApplied])
    ensures !ok ==> node.lastApplied == old(node.lastApplied)
  {
    hide Store.Apply, Fold, Represents;
    var next := node.lastApplied + 1;
    var entry := log.State().GetEntry(next);
    Lookup(log.State(), full, next);
    if entry.None? || !decodes(entry.value) {
      return false;
    }
    FoldOneMore(sm.sessionTTL, full, node.lastApplied);
    var outcome := sm.ApplyCommand(next, entry.value.command);
    if outcome != Applied {
      return false;
    }
    node.lastApplied := next;
    return true;
  }

  /** applyCommitted: stops the process at the first entry that cannot be applied, and otherwise
      leaves the machine at the fold of the log through the commit index. */
  method ApplyCommitted(node: NodeObject.RaftNode, log: DurableLog.RaftLog, sm: MemoryStateMachine,
                        decodes: LogEntry -> bool, ghost full: Log)
    returns (halted: bool)
    requires Represents(log.State(), full) && 0 <= node.lastApplied <= |full|
    requires sm.State() == Fold(sm.sessionTTL, full[..node.lastApplied])
    modifies node`lastApplied, sm`data, sm`sessions, sm`now, sm`appliesSinceSweep
    ensures halted <==> exists k :: old(node.lastApplied) < k <= node.commitIndex
                                    && Stuck(sm.sessionTTL, full, log.lastIncludedIndex, decodes, k)
    ensures old(node.lastApplied) <= node.lastApplied <= |full|
    ensures !halted ==> sm.State() == Fold(sm.sessionTTL, full[..node.lastApplied])
    ensures !halted ==> node.lastApplied == if old(node.lastApplied) < node.commitIndex then node.commitIndex
                                            else old(node.lastApplied)
    ensures halted ==> node.lastApplied < node.commitIndex
                       && Stuck(sm.sessionTTL, full, log.lastIncludedIndex, decodes, node.lastApplied + 1)
  {
    hide Stuck, Fold, Represents;
    var commitIndex := node.commitIndex;
    while node.lastApplied < commitIndex
      invariant old(node.lastApplied) <= node.lastApplied <= |full|
      invariant node.lastApplied <= commitIndex || node.lastApplied == old(node.lastApplied)
      invariant sm.State() == Fold(sm.sessionTTL, full[..node.lastApplied])
      invariant forall k :: old(node.lastApplied) < k <= node.lastApplied
                            ==> !Stuck(sm.sessionTTL, full, log.lastIncludedIndex, decodes, k)
    {
      var ok := ApplyNext(node, log, sm, decodes, full);
      if !ok {
        return true;
      }
    }
    return false;
  }

  lemma Lookup(s: LogState, full: Log, k: int)
    requires Represents(s, full) && k >= 1
    ensures s.GetEntry(k) == if s.lastIncludedIndex < k <= |full| then Some(full[k - 1]) else None
  {
    if s.lastIncludedIndex <= k {
      AccessorsAgree(s, full, k);
    }
  }

  /** compact: the snapshot is written before the log is cut, and only with a term that is known. Even
      if the file cannot be cut, the next start finds the same log behind the new snapshot. */
  method CompactLog(node: NodeObject.RaftNode, log: DurableLog.RaftLog, sm: MemoryStateMachine,
                    file: NodeObject.SnapshotFile, writeOk: bool, cut: Disk, ghost full: Log)
    requires log.Mirrored() && Represents(log.State(), full) && log.lastIncludedIndex <= node.lastApplied <= |full|
    requires sm.State() == Fold(sm.sessionTTL, full[..node.lastApplied])
    requires forall p :: 0 <= p < |full| ==> full[p].term >= 1
    modifies log, file
    ensures Represents(log.State(), full) && (cut != Failed(false) ==> log.Mirrored())
    ensures if node.lastApplied >= 1 && writeOk
            then && log.lastIncludedIndex == node.lastApplied
                 && file.stored == Some(Snapshot(node.lastApplied, TermOf(full, node.lastApplied),
                                                 Fold(sm.sessionTTL, full[..node.lastApplied])))
                 && Represents(Recovered(log.wal).RestoreOffset(file.stored.value.index, file.stored.value.term), full)
            else log.State() == old(log.State()) && file.stored == old(file.stored) && log.Mirrored()
  {
    var index := node.lastApplied;
    var term := log.State().TermAt(index);
    AccessorsAgree(log.State(), full, index);
    if term == 0 || !writeOk {
      return;
    }
    var saved := sm.Snapshot();
    file.stored := Some(Snapshot(index, term, Decoded(saved)));
    ghost var before := log.State();
    CompactionRefines(before, full, index);
    RestoredWal(before, full, index, term);
    var _ := log.TruncateBeforeIndex(index, term, cut);
    RestartRefines(log.State(), full);
  }
}
