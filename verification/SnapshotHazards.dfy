/** InstallSnapshot restores the state machine before it knows whether the snapshot is news. The
    guard compares the snapshot with the compaction boundary only; what the machine needs is a
    comparison with the last applied index. */
module SnapshotHazards {
  import opened Store
  import opened Dedup
  import opened RaftLog
  import opened Consensus
  import opened Ledger
  import opened Cluster

  /** A member whose machine is the fold of what it has applied, and a true snapshot of its log. */
  ghost predicate InStep(ttl: int, n: Raft, log: LogState, machine: Machine, full: Log, s: Snapshot) {
    && Represents(log, full) && 0 <= n.lastApplied <= |full| && machine == Fold(ttl, full[..n.lastApplied])
    && 1 <= s.index <= |full| && s.term == TermOf(full, s.index) && s.state == Fold(ttl, full[..s.index])
  }

  /** The request passes the term check and the boundary guard. */
  predicate Reaches(n: Raft, log: LogState, req: SnapshotRequest, io: Disk) {
    req.term >= n.Term() && n.Accept(req.term, req.leaderID, io).1 && req.snapshot.index > log.firstIndex - 1
  }

  lemma AcceptKeepsIndices(n: Raft, term: int, leader: int, io: Disk)
    ensures n.Accept(term, leader, io).0.lastApplied == n.lastApplied
  {
  }

  /** The sweep counter tells how many commands a machine has applied, modulo the interval. */
  lemma FoldCountsCommands(ttl: int, log: Log)
    ensures Fold(ttl, log).sinceSweep == |log| % SWEEP_INTERVAL
  {
    hide Fold, ApplyAll;
    FoldIsApplyAll(ttl, log);
    ClocksAgree(ttl, Commands(log), |log|);
    assert Commands(log)[..|log|] == Commands(log);
  }

  /** So two prefixes whose lengths differ by anything but a multiple of it leave different machines. */
  lemma PrefixesDiffer(ttl: int, full: Log, a: nat, b: nat)
    requires a <= |full| && b <= |full| && Fold(ttl, full[..a]) == Fold(ttl, full[..b])
    ensures (b - a) % SWEEP_INTERVAL == 0
  {
    FoldCountsCommands(ttl, full[..a]);
    FoldCountsCommands(ttl, full[..b]);
    hide Fold;
    SameCount(a, b);
  }

  lemma SameCount(a: int, b: int)
    ensures a % SWEEP_INTERVAL == b % SWEEP_INTERVAL <==> (b - a) % SWEEP_INTERVAL == 0
  {
  }

  /** A difference the sweep counter can tell. */
  predicate Tells(a: int, b: int) {
    a == b || (b - a) % SWEEP_INTERVAL != 0
  }

  /** A completed install leaves the machine at the fold of what is counted as applied exactly when
      the snapshot is not behind the last applied index; a snapshot behind by a multiple of the sweep
      interval can get away with it, if the commands in between left no trace at all. */
  lemma InstallKeepsStepExactlyWhen(ttl: int, n: Raft, log: LogState, machine: Machine, stored: Option<Snapshot>,
                                    full: Log, req: SnapshotRequest, io: Disk)
    requires InStep(ttl, n, log, machine, full, req.snapshot) && Reaches(n, log, req, io)
    ensures var d := HandleInstallSnapshot(n, log, machine, stored, req, io, Completes);
            var index := req.snapshot.index;
            && 0 <= d.raft.lastApplied <= |full| && Represents(d.log, full)
            && (Tells(index, n.lastApplied) ==>
                  (d.machine == Fold(ttl, full[..d.raft.lastApplied]) <==> index >= n.lastApplied))
            && (d.machine == Fold(ttl, full[..d.raft.lastApplied])
                <==> || index >= n.lastApplied
                     || ((n.lastApplied - index) % SWEEP_INTERVAL == 0 && req.snapshot.state == machine))
  {
    hide Fold, HandleInstallSnapshot, Represents, Reaches, TermOf;
    InstallIs(n, log, machine, stored, full, req, io);
    if req.snapshot.state == machine {
      PrefixesDiffer(ttl, full, req.snapshot.index, n.lastApplied);
    }
  }

  lemma InstallIs(n: Raft, log: LogState, machine: Machine, stored: Option<Snapshot>, full: Log, req: SnapshotRequest,
                  io: Disk)
    requires Represents(log, full) && Reaches(n, log, req, io)
    requires 1 <= req.snapshot.index <= |full| && req.snapshot.term == TermOf(full, req.snapshot.index)
    ensures var d := HandleInstallSnapshot(n, log, machine, stored, req, io, Completes);
            && d.machine == req.snapshot.state && Represents(d.log, full)
            && d.raft.lastApplied == if req.snapshot.index > n.lastApplied then req.snapshot.index else n.lastApplied
  {
    hide Raft.Accept;
    AcceptKeepsIndices(n, req.term, req.leaderID, io);
    ResetRefines(log, full, full[..req.snapshot.index]);
  }

  /** An install whose snapshot cannot be persisted has already replaced the machine: it stays in step
      exactly when the snapshot is of the very index last applied, ahead or behind by a multiple of the
      sweep interval aside. */
  lemma FailedPersistKeepsStepExactlyWhen(ttl: int, n: Raft, log: LogState, machine: Machine, stored: Option<Snapshot>,
                                          full: Log, req: SnapshotRequest, io: Disk)
    requires InStep(ttl, n, log, machine, full, req.snapshot) && Reaches(n, log, req, io)
    ensures var d := HandleInstallSnapshot(n, log, machine, stored, req, io, PersistFails);
            var index := req.snapshot.index;
            && !d.reply.success && d.log == log && d.raft.lastApplied == n.lastApplied
            && (Tells(index, n.lastApplied) ==>
                  (d.machine == Fold(ttl, full[..d.raft.lastApplied]) <==> index == n.lastApplied))
            && (d.machine == Fold(ttl, full[..d.raft.lastApplied])
                <==> || index == n.lastApplied
                     || ((n.lastApplied - index) % SWEEP_INTERVAL == 0 && req.snapshot.state == machine))
  {
    hide Fold, Raft.Accept;
    AcceptKeepsIndices(n, req.term, req.leaderID, io);
    if req.snapshot.state == machine {
      PrefixesDiffer(ttl, full, req.snapshot.index, n.lastApplied);
    }
  }

  predicate IsIdle(cmd: Command, now: int) {
    cmd.op == Noop && cmd.clientID == "" && cmd.timestamp <= now
  }

  lemma OneIdleCommand(m: Machine, ttl: int, index: int, cmd: Command)
    requires m.sessions == map[] && IsIdle(cmd, m.now)
    ensures Apply(m, ttl, index, cmd).0
            == m.(sinceSweep := if m.sinceSweep + 1 < SWEEP_INTERVAL then m.sinceSweep + 1 else 0)
  {
    assert Live(m.sessions, m.now - ttl) == map[];
  }

  /** No-ops that move neither clock nor sessions change nothing but the sweep counter. */
  lemma {:induction false} IdleCommandsOnlyCount(ttl: int, log: Log, idle: Log)
    requires Fold(ttl, log).sessions == map[]
    requires forall p :: 0 <= p < |idle| ==> IsIdle(idle[p].command, Fold(ttl, log).now)
    ensures Fold(ttl, log + idle) == Fold(ttl, log).(sinceSweep := (|log| + |idle|) % SWEEP_INTERVAL)
    decreases |idle|
  {
    hide Fold, Apply, IsIdle;
    if idle == [] {
      FoldCountsCommands(ttl, log);
      assert log + idle == log;
    } else {
      var short := idle[..|idle| - 1];
      IdleCommandsOnlyCount(ttl, log, short);
      FoldOneMore(ttl, log + idle, |log + short|);
      assert (log + idle)[..|log + short|] == log + short && (log + idle)[..|log + idle|] == log + idle;
      OneIdleCommand(Fold(ttl, log + short), ttl, |log + idle|, idle[|idle| - 1].command);
      NextCount(|log| + |short|);
    }
  }

  /** After a whole number of intervals of them, a prefix and its extension leave one machine. */
  lemma IdleIntervalsLeaveNoTrace(ttl: int, log: Log, idle: Log)
    requires Fold(ttl, log).sessions == map[] && |idle| % SWEEP_INTERVAL == 0
    requires forall p :: 0 <= p < |idle| ==> IsIdle(idle[p].command, Fold(ttl, log).now)
    ensures Fold(ttl, log + idle) == Fold(ttl, log)
  {
    hide Fold, IsIdle;
    IdleCommandsOnlyCount(ttl, log, idle);
    FoldCountsCommands(ttl, log);
    SameCount(|log|, |log| + |idle|);
  }

  lemma FoldOfOne(ttl: int, e: LogEntry)
    ensures Fold(ttl, [e]) == Apply(FRESH, ttl, 1, e.command).0
  {
    assert [e][..0] == [];
  }

  lemma FoldOfTwo(ttl: int, a: LogEntry, b: LogEntry)
    ensures Fold(ttl, [a, b]) == Apply(Apply(FRESH, ttl, 1, a.command).0, ttl, 2, b.command).0
  {
    assert [a, b][..1] == [a];
    FoldOfOne(ttl, a);
  }

  /** A late duplicate of an old snapshot undoes an applied write for good: index 2 is counted as
      applied, so nothing will ever apply it again. */
  lemma StaleInstallUndoesWrite(ttl: int, n: Raft, log: LogState, req: SnapshotRequest, a: LogEntry, b: LogEntry)
    requires a == LogEntry(1, 1, Command(Set, "k", "old", "", 0, 0))
             && b == LogEntry(2, 1, Command(Set, "k", "new", "", 0, 0))
    requires log == LogState([a, b], 3, 1, 0, 0) && n.lastApplied == 2 && n.role == Follower && n.Term() == 1
    requires req == SnapshotRequest(1, 9, Snapshot(1, 1, Fold(ttl, [a])))
    ensures Fold(ttl, [a, b]).data == map["k" := "new"]
    ensures var d := HandleInstallSnapshot(n, log, Fold(ttl, [a, b]), None, req, Durable, Completes);
            d.reply.success && d.raft.lastApplied == 2 && d.machine.data == map["k" := "old"]
  {
    FoldOfOne(ttl, a);
    FoldOfTwo(ttl, a, b);
    var m := Apply(FRESH, ttl, 1, a.command).0;
    assert m.data == map["k" := "old"];
    assert Apply(m, ttl, 2, b.command).0.data == map["k" := "old"]["k" := "new"] == map["k" := "new"];
  }
}
