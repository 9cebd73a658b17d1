/** How far a member's state machine is behind what the member counts as applied, over its whole life.
    An install that is stale or cannot be persisted opens a gap (internal/raft/node.go), applying carries
    it along, compaction writes it to disk (internal/engine/engine.go) and a restart reads it back. */
module Drift {
  import opened Store
  import opened RaftLog
  import opened Consensus
  import opened Ledger
  import opened Cluster
  import opened SnapshotHazards

  datatype Member = Member(node: Node, full: Log)

  datatype LifeOp =
    | Applies
    | Receives(prefix: Log, req: SnapshotRequest, io: Disk, install: Install)
    | Compacts
    | Restarts
    | Proceeds(node: Node, full: Log)

  /** Entries counted as applied that the machine in memory, or on file, never saw; negative if it saw
      entries that were never counted. */
  datatype Gap = Gap(memory: int, file: int)

  /** Two stretches of one history, one known to be applied up to k. */
  predicate Agrees(prefix: Log, full: Log, k: int)
    requires 0 <= k <= |full|
  {
    && WellIndexed(prefix) && prefix != []
    && (|prefix| <= |full| && TermOf(full, |prefix|) == TermOf(prefix, |prefix|) ==> prefix <= full)
    && (if |prefix| <= k then prefix <= full else full[..k] <= prefix)
  }

  /** Snapshots received are true ones, and no other step touches what was applied. */
  ghost predicate Allowed(ttl: int, m: Member, op: LifeOp) {
    var n := m.node;
    match op
    case Receives(prefix, req, io, install) =>
      && 0 <= n.raft.lastApplied <= |m.full| && Agrees(prefix, m.full, n.raft.lastApplied)
      && req.snapshot == Snapshot(|prefix|, TermOf(prefix, |prefix|), Fold(ttl, prefix))
    case Proceeds(n', full') =>
      && n'.machine == n.machine && n'.snapshot == n.snapshot && n'.raft.lastApplied == n.raft.lastApplied
      && n'.log.lastIncludedIndex == n.log.lastIncludedIndex && n'.log.lastIncludedTerm == n.log.lastIncludedTerm
      && Represents(n'.log, full') && 0 <= n.raft.lastApplied <= |full'| && n.raft.lastApplied <= |m.full|
      && full'[..n.raft.lastApplied] == m.full[..n.raft.lastApplied]
    case _ => true
  }

  /** What the code does. */
  function Lives(ttl: int, h: History, m: Member, op: LifeOp): Member {
    var n := m.node;
    match op
    case Applies => m.(node := ApplyOne(h, ttl, n).node)
    case Receives(prefix, req, io, install) =>
      var d := HandleInstallSnapshot(n.raft, n.log, n.machine, n.snapshot, req, io, install);
      var replaced := Reaches(n.raft, n.log, req, io) && install == Completes
                      && !(|prefix| <= |m.full| && TermOf(m.full, |prefix|) == TermOf(prefix, |prefix|));
      Member(n.(raft := d.raft, log := d.log, machine := d.machine, snapshot := d.snapshot),
             if replaced then prefix else m.full)
    case Compacts => m.(node := Compact(h, n).node)
    case Restarts => m.(node := Restarted(n))
    case Proceeds(n', full') => Member(n', full')
  }

  /** What that does to the gap. */
  function Shifts(m: Member, g: Gap, op: LifeOp): Gap {
    var n := m.node;
    match op
    case Receives(prefix, req, io, install) =>
      if !Reaches(n.raft, n.log, req, io) || install == RestoreFails then g
      else if install == PersistFails then g.(memory := n.raft.lastApplied - |prefix|)
      else Gap(if |prefix| < n.raft.lastApplied then n.raft.lastApplied - |prefix| else 0, 0)
    case Compacts =>
      if n.raft.lastApplied <= 0 || n.log.TermAt(n.raft.lastApplied) == 0 then g else g.(file := g.memory)
    case Restarts => g.(memory := g.file)
    case _ => g
  }

  /** A machine this far behind index k: its sweep counter shows it, and without a gap it is the fold. */
  ghost predicate Behind(ttl: int, machine: Machine, full: Log, k: int, gap: int) {
    && 0 <= k <= |full|
    && machine.sinceSweep == (k - gap) % SWEEP_INTERVAL
    && (gap == 0 ==> machine == Fold(ttl, full[..k]))
  }

  ghost predicate Fits(ttl: int, m: Member, g: Gap) {
    var n := m.node;
    && Represents(n.log, m.full) && n.log.lastIncludedIndex <= n.raft.lastApplied
    && Behind(ttl, n.machine, m.full, n.raft.lastApplied, g.memory)
    && (match n.snapshot
        case None => n.log.lastIncludedIndex == 0 && g.file == 0
        case Some(s) => && s.index == n.log.lastIncludedIndex >= 1 && s.term == n.log.lastIncludedTerm
                        && Behind(ttl, s.state, m.full, s.index, g.file))
  }

  // ---- Each operation ----

  lemma CountsOn(m: Machine, ttl: int, index: int, cmd: Command, k: int, gap: int)
    requires m.sinceSweep == (k - gap) % SWEEP_INTERVAL
    ensures Apply(m, ttl, index, cmd).0.sinceSweep == (k + 1 - gap) % SWEEP_INTERVAL
  {
  }

  lemma ApplyFits(ttl: int, h: History, m: Member, g: Gap)
    requires Fits(ttl, m, g)
    ensures Fits(ttl, Lives(ttl, h, m, Applies), g)
  {
    hide Fold, Apply, Represents, LogState.GetEntry;
    var n := m.node;
    var next := n.raft.lastApplied + 1;
    AccessorsAgree(n.log, m.full, next);
    if n.raft.lastApplied < n.raft.commitIndex && n.log.GetEntry(next).Some? {
      CountsOn(n.machine, ttl, next, m.full[next - 1].command, n.raft.lastApplied, g.memory);
      FoldOneMore(ttl, m.full, n.raft.lastApplied);
    }
  }

  /** A fold of a prefix is behind index k by the difference. */
  lemma FoldBehind(ttl: int, prefix: Log, full: Log, k: int)
    requires 0 <= k <= |full| && (|prefix| == k ==> prefix == full[..k])
    ensures Behind(ttl, Fold(ttl, prefix), full, k, k - |prefix|)
  {
    hide Fold;
    FoldCountsCommands(ttl, prefix);
  }

  lemma BehindElsewhere(ttl: int, machine: Machine, full: Log, full': Log, k: int, gap: int)
    requires Behind(ttl, machine, full, k, gap) && k <= |full'| && full'[..k] == full[..k]
    ensures Behind(ttl, machine, full', k, gap)
  {
  }

  lemma CompactFits(ttl: int, h: History, m: Member, g: Gap)
    requires Fits(ttl, m, g)
    ensures Fits(ttl, Lives(ttl, h, m, Compacts), Shifts(m, g, Compacts))
  {
    hide Fold, Represents, Behind, LogState.TruncateBefore;
    var n := m.node;
    assert n.raft.lastApplied <= |m.full| by {
      BehindBounds(ttl, n.machine, m.full, n.raft.lastApplied, g.memory);
    }
    AccessorsAgree(n.log, m.full, n.raft.lastApplied);
    CompactionRefines(n.log, m.full, n.raft.lastApplied);
    CompactedTerm(n.log, m.full, n.raft.lastApplied);
  }

  lemma BehindBounds(ttl: int, machine: Machine, full: Log, k: int, gap: int)
    requires Behind(ttl, machine, full, k, gap)
    ensures 0 <= k <= |full|
  {
  }

  lemma CompactedTerm(s: LogState, full: Log, index: int)
    requires Represents(s, full) && s.lastIncludedIndex <= index <= |full|
    ensures s.TruncateBefore(index, TermOf(full, index)).lastIncludedTerm == TermOf(full, index)
  {
    CompactionRefines(s, full, index);
  }

  lemma RestartFits(ttl: int, h: History, m: Member, g: Gap)
    requires Fits(ttl, m, g)
    ensures Fits(ttl, Lives(ttl, h, m, Restarts), Shifts(m, g, Restarts))
  {
    hide Fold, Represents, Recovered, RunFrom, Behind;
    var n := m.node;
    RestartRefines(n.log, m.full);
    if n.snapshot.None? {
      NothingBelowOne(n.log, m.full);
      FreshBehind(ttl, m.full);
    }
  }

  lemma FreshBehind(ttl: int, full: Log)
    ensures Behind(ttl, FRESH, full, 0, 0)
  {
    assert full[..0] == [];
  }

  lemma NothingBelowOne(s: LogState, full: Log)
    requires Represents(s, full) && s.lastIncludedIndex == 0
    ensures s.lastIncludedTerm == 0
  {
  }

  /** What an install does to each part of a member. */
  lemma ReceiveIs(ttl: int, h: History, m: Member, op: LifeOp)
    requires op.Receives? && Allowed(ttl, m, op) && Represents(m.node.log, m.full)
    requires Reaches(m.node.raft, m.node.log, op.req, op.io)
    ensures var n, n', k := m.node, Lives(ttl, h, m, op).node, |op.prefix|;
            && Represents(n'.log, Lives(ttl, h, m, op).full)
            && (op.install == RestoreFails ==> n'.machine == n.machine)
            && (op.install != RestoreFails ==> n'.machine == Fold(ttl, op.prefix))
            && (op.install != Completes ==> && n'.log == n.log && n'.snapshot == n.snapshot
                                            && n'.raft.lastApplied == n.raft.lastApplied)
            && (op.install == Completes ==>
                  && n'.snapshot == Some(op.req.snapshot) && n'.log.lastIncludedIndex == k
                  && n'.log.lastIncludedTerm == TermOf(op.prefix, k)
                  && n'.raft.lastApplied == if k > n.raft.lastApplied then k else n.raft.lastApplied)
  {
    hide Fold, Raft.Accept;
    var n := m.node;
    AcceptKeepsIndices(n.raft, op.req.term, op.req.leaderID, op.io);
    ResetRefines(n.log, m.full, op.prefix);
  }

  /** The log an install leaves begins with the snapshot's prefix and keeps what was applied. */
  lemma ReceivedLog(ttl: int, h: History, m: Member, op: LifeOp)
    requires op.Receives? && Allowed(ttl, m, op) && Reaches(m.node.raft, m.node.log, op.req, op.io)
    requires op.install == Completes
    ensures var full', k := Lives(ttl, h, m, op).full, m.node.raft.lastApplied;
            && 1 <= |op.prefix| && op.prefix <= full' && k <= |m.full|
            && (k >= |op.prefix| ==> k <= |full'| && full'[..k] == m.full[..k])
  {
    hide Fold, HandleInstallSnapshot;
  }

  lemma ReceiveFits(ttl: int, h: History, m: Member, g: Gap, op: LifeOp)
    requires Fits(ttl, m, g) && op.Receives? && Allowed(ttl, m, op)
    ensures Fits(ttl, Lives(ttl, h, m, op), Shifts(m, g, op))
  {
    hide Fold, Represents, Raft.Accept, HandleInstallSnapshot, Behind, Agrees;
    var n, k := m.node, m.node.raft.lastApplied;
    if !Reaches(n.raft, n.log, op.req, op.io) {
      NotReached(ttl, h, m, op);
    } else {
      ReceiveIs(ttl, h, m, op);
      if op.install == PersistFails {
        AgreedAt(op.prefix, m.full, k);
        FoldBehind(ttl, op.prefix, m.full, k);
      } else if op.install == Completes {
        ReceivedLog(ttl, h, m, op);
        var full' := Lives(ttl, h, m, op).full;
        assert full'[..|op.prefix|] == op.prefix;
        FoldBehind(ttl, op.prefix, full', |op.prefix|);
        if k > |op.prefix| {
          FoldBehind(ttl, op.prefix, full', k);
        }
      }
    }
  }

  lemma AgreedAt(prefix: Log, full: Log, k: int)
    requires 0 <= k <= |full| && Agrees(prefix, full, k)
    ensures |prefix| == k ==> prefix == full[..k]
  {
  }

  /** A request that does not get as far as the restore. */
  lemma NotReached(ttl: int, h: History, m: Member, op: LifeOp)
    requires op.Receives? && !Reaches(m.node.raft, m.node.log, op.req, op.io)
    ensures var n, n' := m.node, Lives(ttl, h, m, op).node;
            && Lives(ttl, h, m, op).full == m.full && n'.log == n.log && n'.machine == n.machine
            && n'.snapshot == n.snapshot && n'.raft.lastApplied == n.raft.lastApplied
  {
    hide Raft.Accept;
    AcceptKeepsIndices(m.node.raft, op.req.term, op.req.leaderID, op.io);
  }

  lemma LifeFits(ttl: int, h: History, m: Member, g: Gap, op: LifeOp)
    requires Fits(ttl, m, g) && Allowed(ttl, m, op)
    ensures Fits(ttl, Lives(ttl, h, m, op), Shifts(m, g, op))
  {
    hide Fits;
    match op
    case Applies => ApplyFits(ttl, h, m, g);
    case Receives(_, _, _, _) => ReceiveFits(ttl, h, m, g, op);
    case Compacts => CompactFits(ttl, h, m, g);
    case Restarts => RestartFits(ttl, h, m, g);
    case Proceeds(_, _) => ProceedFits(ttl, h, m, g, op);
  }

  lemma ProceedFits(ttl: int, h: History, m: Member, g: Gap, op: LifeOp)
    requires Fits(ttl, m, g) && op.Proceeds? && Allowed(ttl, m, op)
    ensures Fits(ttl, Lives(ttl, h, m, op), g)
  {
    hide Fold, Represents, Behind;
    var n, k := m.node, m.node.raft.lastApplied;
    BehindElsewhere(ttl, n.machine, m.full, op.full, k, g.memory);
    if n.snapshot.Some? {
      var b := n.snapshot.value.index;
      assert op.full[..k][..b] == op.full[..b] && m.full[..k][..b] == m.full[..b];
      BehindElsewhere(ttl, n.snapshot.value.state, m.full, op.full, b, g.file);
    }
  }

  // ---- Whole lives ----

  function LivesAll(ttl: int, h: History, m: Member, ops: seq<LifeOp>): Member {
    if ops == [] then m else Lives(ttl, h, LivesAll(ttl, h, m, ops[..|ops| - 1]), ops[|ops| - 1])
  }

  function ShiftsAll(ttl: int, h: History, m: Member, ops: seq<LifeOp>): Gap {
    if ops == [] then Gap(0, 0)
    else
      var before := ops[..|ops| - 1];
      Shifts(LivesAll(ttl, h, m, before), ShiftsAll(ttl, h, m, before), ops[|ops| - 1])
  }

  ghost predicate AllowedAll(ttl: int, h: History, m: Member, ops: seq<LifeOp>) {
    ops != [] ==>
      var before := ops[..|ops| - 1];
      AllowedAll(ttl, h, m, before) && Allowed(ttl, LivesAll(ttl, h, m, before), ops[|ops| - 1])
  }

  /** A member with nothing but an empty log. */
  ghost predicate Blank(m: Member) {
    && m.full == [] && m.node.log == Recovered([]) && m.node.machine == FRESH && m.node.snapshot == None
    && m.node.raft.lastApplied == 0
  }

  lemma BlankFits(ttl: int, m: Member)
    requires Blank(m)
    ensures Fits(ttl, m, Gap(0, 0))
  {
    FreshBehind(ttl, m.full);
  }

  lemma {:induction false} LifeAllFits(ttl: int, h: History, m: Member, ops: seq<LifeOp>)
    requires Blank(m) && AllowedAll(ttl, h, m, ops)
    ensures Fits(ttl, LivesAll(ttl, h, m, ops), ShiftsAll(ttl, h, m, ops))
    decreases |ops|
  {
    hide Fits, Lives, Shifts, Allowed, Blank;
    if ops == [] {
      BlankFits(ttl, m);
    } else {
      var before := ops[..|ops| - 1];
      LifeAllFits(ttl, h, m, before);
      LifeFits(ttl, h, LivesAll(ttl, h, m, before), ShiftsAll(ttl, h, m, before), ops[|ops| - 1]);
    }
  }

  /** The machine is the fold of what is counted as applied. */
  ghost predicate Steady(ttl: int, m: Member) {
    0 <= m.node.raft.lastApplied <= |m.full| && m.node.machine == Fold(ttl, m.full[..m.node.raft.lastApplied])
  }

  lemma SteadyExactlyWhen(ttl: int, m: Member, g: Gap)
    requires Fits(ttl, m, g)
    ensures g.memory == 0 ==> Steady(ttl, m)
    ensures Steady(ttl, m) ==> g.memory % SWEEP_INTERVAL == 0
  {
    hide Fold;
    var k := m.node.raft.lastApplied;
    FoldCountsCommands(ttl, m.full[..k]);
    SameCount(k - g.memory, k);
  }

  /** Over every life from an empty member, at every moment: the machine is in step exactly when no gap
      is open, and a restart brings back a machine in step exactly when none was open when the snapshot
      on file was written. A gap of whole sweep intervals aside, which the counter cannot tell. */
  lemma InStepExactlyWhen(ttl: int, h: History, m: Member, ops: seq<LifeOp>)
    requires Blank(m) && AllowedAll(ttl, h, m, ops)
    ensures var now, g := LivesAll(ttl, h, m, ops), ShiftsAll(ttl, h, m, ops);
            && (g.memory == 0 ==> Steady(ttl, now))
            && (g.file == 0 ==> Steady(ttl, Lives(ttl, h, now, Restarts)))
            && (Tells(g.memory, 0) ==> (Steady(ttl, now) <==> g.memory == 0))
            && (Tells(g.file, 0) ==> (Steady(ttl, Lives(ttl, h, now, Restarts)) <==> g.file == 0))
  {
    hide Fits, Steady, Lives, LivesAll, ShiftsAll, AllowedAll, Blank;
    var now, g := LivesAll(ttl, h, m, ops), ShiftsAll(ttl, h, m, ops);
    LifeAllFits(ttl, h, m, ops);
    SteadyExactlyWhen(ttl, now, g);
    RestartFits(ttl, h, now, g);
    SteadyExactlyWhen(ttl, Lives(ttl, h, now, Restarts), g.(memory := g.file));
    SameCount(g.memory, 0);
    SameCount(g.file, 0);
  }

  /** The failing input: the write undone by a stale install stays undone. Compaction writes the wrong
      machine under index 2, and every restart brings it back. */
  lemma StaleInstallLasts(ttl: int, h: History, n: Node, req: SnapshotRequest, a: LogEntry, b: LogEntry)
    requires a == LogEntry(1, 1, Command(Set, "k", "old", "", 0, 0))
             && b == LogEntry(2, 1, Command(Set, "k", "new", "", 0, 0))
    requires n.log == LogState([a, b], 3, 1, 0, 0) && n.machine == Fold(ttl, [a, b]) && n.snapshot == None
    requires n.raft.lastApplied == 2 && n.raft.role == Follower && n.raft.Term() == 1
    requires req == SnapshotRequest(1, 9, Snapshot(1, 1, Fold(ttl, [a])))
    ensures var installed := Lives(ttl, h, Member(n, [a, b]), Receives([a], req, Durable, Completes));
            var r := Lives(ttl, h, Lives(ttl, h, installed, Compacts), Restarts).node;
            && r.raft.lastApplied == 2 && r.machine.data == map["k" := "old"]
            && Fold(ttl, [a, b]).data == map["k" := "new"]
  {
    StaleInstallUndoesWrite(ttl, n.raft, n.log, req, a, b);
    InstalledBoth(ttl, h, n, req, a, b);
    hide Fold, HandleInstallSnapshot;
  }

  lemma InstalledBoth(ttl: int, h: History, n: Node, req: SnapshotRequest, a: LogEntry, b: LogEntry)
    requires a.index == 1 && b.index == 2 && a.term == b.term == 1
    requires n.log == LogState([a, b], 3, 1, 0, 0) && n.raft.lastApplied == 2
    requires n.raft.role == Follower && n.raft.Term() == 1
    requires req == SnapshotRequest(1, 9, Snapshot(1, 1, Fold(ttl, [a])))
    ensures var installed := Lives(ttl, h, Member(n, [a, b]), Receives([a], req, Durable, Completes)).node;
            && installed.machine == Fold(ttl, [a]) && installed.raft.lastApplied == 2
            && installed.log.TermAt(2) == 1
  {
    hide Fold;
    assert n.log.GetEntry(1) == Some(a);
    assert [a, b][0..] == [a, b] && [a, b][1..] == [b];
    AboveIsSuffix([a, b], 0, 1);
  }
}
