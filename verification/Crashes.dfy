/** Crashes inside what the cluster takes as one step: the snapshot is persisted before the log is cut
    (internal/raft/node.go, internal/engine/engine.go), so a crash may fall in between. */
module Crashes {
  import opened Store
  import opened RaftLog
  import opened Consensus
  import opened Ledger
  import opened Cluster
  import opened SnapshotHazards

  /** A restart knows the files alone. */
  lemma RestartedIs(n: Node, m: Node)
    requires m.raft.id == n.raft.id && m.raft.config == n.raft.config && m.raft.disk == n.raft.disk
    requires m.snapshot == n.snapshot
    ensures Restarted(n).(log := Restarted(m).log) == Restarted(m)
  {
  }

  /** Compaction: wherever the crash falls, the member comes back as if the log had been cut. */
  lemma CrashInsideCompaction(h: History, n: Node, full: Log)
    requires Represents(n.log, full) && n.log.lastIncludedIndex <= n.raft.lastApplied <= |full|
    ensures var done := Compact(h, n).node;
            Restarted(n.(snapshot := done.snapshot)) == Restarted(done)
  {
    var index := n.raft.lastApplied;
    var done := Compact(h, n).node;
    AccessorsAgree(n.log, full, index);
    if index > 0 && n.log.TermAt(index) != 0 {
      CompactionRefines(n.log, full, index);
      RestoredWal(n.log, full, index, TermOf(full, index));
      RestoredWal(done.log, full, index, TermOf(full, index));
      RestartedIs(n.(snapshot := done.snapshot), done);
    }
  }

  /** A received snapshot that was restored and persisted, with the log still uncut. */
  function Persisted(n: Node, req: SnapshotRequest, io: Disk): Node {
    n.(raft := n.raft.Accept(req.term, req.leaderID, io).0, machine := req.snapshot.state,
       snapshot := Some(req.snapshot))
  }

  function Completed(n: Node, req: SnapshotRequest, io: Disk): Node {
    var d := HandleInstallSnapshot(n.raft, n.log, n.machine, n.snapshot, req, io, Completes);
    n.(raft := d.raft, log := d.log, machine := d.machine, snapshot := d.snapshot)
  }

  /** InstallSnapshot: the member comes back as after a completed install, whose reply was lost, exactly
      when the log's own term at the boundary matches the snapshot's or the log ends at or below it. */
  lemma CrashInsideInstall(n: Node, full: Log, req: SnapshotRequest, io: Disk)
    requires Represents(n.log, full) && n.log.lastIncludedIndex < req.snapshot.index
    requires req.term >= n.raft.Term() && n.raft.Accept(req.term, req.leaderID, io).1
    ensures Restarted(Persisted(n, req, io)) == Restarted(Completed(n, req, io))
            <==> TermOf(full, req.snapshot.index) == req.snapshot.term || |full| <= req.snapshot.index
  {
    hide HandleInstallSnapshot, Represents, Raft.Accept, Restarted, TermOf;
    var s := req.snapshot;
    var mid, done := Persisted(n, req, io), Completed(n, req, io);
    CompletedIs(n, full, req, io);
    RestartedIs(mid, done);
    RestartedLogs(mid, done);
    ReopensAlike(n.log, full, s.index, s.term);
  }

  lemma RestartedLogs(n: Node, m: Node)
    requires n.snapshot.Some? && m.snapshot == n.snapshot
    ensures Restarted(n).log == Recovered(n.log.cache).RestoreOffset(n.snapshot.value.index, n.snapshot.value.term)
    ensures Restarted(m).log == Recovered(m.log.cache).RestoreOffset(n.snapshot.value.index, n.snapshot.value.term)
  {
  }

  lemma CompletedIs(n: Node, full: Log, req: SnapshotRequest, io: Disk)
    requires Represents(n.log, full) && n.log.lastIncludedIndex < req.snapshot.index
    requires req.term >= n.raft.Term() && n.raft.Accept(req.term, req.leaderID, io).1
    ensures var mid, done := Persisted(n, req, io), Completed(n, req, io);
            && done.raft.id == mid.raft.id && done.raft.config == mid.raft.config && done.raft.disk == mid.raft.disk
            && done.snapshot == mid.snapshot == Some(req.snapshot) && mid.log == n.log
            && done.log == n.log.ResetToSnapshot(req.snapshot.index, req.snapshot.term)
  {
    hide LogState.ResetToSnapshot, Raft.Accept;
  }

  lemma ReopensAlike(s: LogState, full: Log, index: int, term: int)
    requires Represents(s, full) && s.lastIncludedIndex < index
    ensures Recovered(s.cache).RestoreOffset(index, term)
            == Recovered(s.ResetToSnapshot(index, term).cache).RestoreOffset(index, term)
            <==> TermOf(full, index) == term || |full| <= index
  {
    RestoredWal(s, full, index, term);
    ResetCache(s, full, index, term);
    if index <= |full| {
      RunIsSuffix(full, index, index);
    }
  }

  lemma ResetCache(s: LogState, full: Log, index: int, term: int)
    requires Represents(s, full) && s.lastIncludedIndex < index
    ensures s.ResetToSnapshot(index, term).cache
            == if index <= |full| && TermOf(full, index) == term then full[index..] else []
  {
    AccessorsAgree(s, full, index);
    AboveIsSuffix(full, s.lastIncludedIndex, index);
  }

  /** The snapshot on file is a true one of the boundary. */
  ghost predicate TrueFile(ttl: int, n: Node, full: Log) {
    match n.snapshot
    case None => n.log.lastIncludedIndex == 0
    case Some(s) =>
      && s.index == n.log.lastIncludedIndex >= 1 && s.term == n.log.lastIncludedTerm
      && s.index <= |full| && s.state == Fold(ttl, full[..s.index])
  }

  lemma RestartInStep(ttl: int, n: Node, full: Log)
    requires Represents(n.log, full) && TrueFile(ttl, n, full)
    ensures var r := Restarted(n);
            && Represents(r.log, full) && 0 <= r.raft.lastApplied <= |full|
            && r.machine == Fold(ttl, full[..r.raft.lastApplied])
  {
    assert n.snapshot.None? ==> n.log.lastIncludedTerm == 0;
    hide Fold, Represents, Recovered, RunFrom, LogState.RestoreOffset;
    RestartRefines(n.log, full);
    if n.snapshot.None? {
      assert full[..0] == [];
      FoldNothing(ttl);
    }
  }

  lemma FoldNothing(ttl: int)
    ensures Fold(ttl, []) == FRESH
  {
  }

  /** An install that left machine and applied index out of step, whether behind or never persisted,
      is undone by a restart that comes before the next compaction; `Drift` says what happens after. */
  lemma RestartRepairs(ttl: int, n: Node, full: Log, req: SnapshotRequest, io: Disk, install: Install)
    requires InStep(ttl, n.raft, n.log, n.machine, full, req.snapshot) && Reaches(n.raft, n.log, req, io)
    requires TrueFile(ttl, n, full)
    ensures var d := HandleInstallSnapshot(n.raft, n.log, n.machine, n.snapshot, req, io, install);
            var r := Restarted(n.(raft := d.raft, log := d.log, machine := d.machine, snapshot := d.snapshot));
            && Represents(r.log, full) && 0 <= r.raft.lastApplied <= |full|
            && r.machine == Fold(ttl, full[..r.raft.lastApplied])
  {
    hide Fold, Raft.Accept, Restarted;
    var d := HandleInstallSnapshot(n.raft, n.log, n.machine, n.snapshot, req, io, install);
    if install == Completes {
      InstallIs(n.raft, n.log, n.machine, n.snapshot, full, req, io);
    }
    RestartInStep(ttl, n.(raft := d.raft, log := d.log, machine := d.machine, snapshot := d.snapshot), full);
  }
}
