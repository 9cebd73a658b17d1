/** The replication messages: both receivers and both replies keep the invariant. */
module Deliveries {
  import opened Membership
  import opened Store
  import opened RaftLog
  import opened Consensus
  import opened Ledger
  import opened Cluster
  import opened Invariant
  import opened Frames
  import opened Elections
  import opened Receivers

  lemma SameFull(h: History, i: int)
    requires i in h.full
    ensures h.full[i := h.full[i]] == h.full
  {
  }

  /** A refused request leaves the member as accepting or refusing the term left it. */
  lemma Refused(c: Configuration, ttl: int, h: History, i: int, n: Node, term: int, leader: int, io: Disk)
    requires HistoryOk(c, h) && NodeOk(c, ttl, h, i, n) && TermPolled(h.polls, term)
    requires term < n.raft.Term() || !n.raft.Accept(term, leader, io).1
    ensures var r := if term < n.raft.Term() then n.raft else n.raft.Accept(term, leader, io).0;
            && StepOk(c, ttl, h, i, Effect(n.(raft := r), {}, h.(seen := h.seen[i := r.Term()])))
            && n.raft.Term() == r.Term() != term && TermPolled(h.polls, r.Term())
  {
    hide HistoryOk, NodeOk, Extends;
    BallotFacts(c, ttl, h, i, n);
    SameSeen(h, i);
    ExtendsSelf(h, i);
    if term >= n.raft.Term() {
      Accepts(c, ttl, h, i, n, term, leader, io);
    }
  }

  /** An accepted request: the member is a follower in the sender's term. */
  lemma AcceptedIs(c: Configuration, ttl: int, h: History, i: int, n: Node, term: int, leader: int, io: Disk)
    requires HistoryOk(c, h) && NodeOk(c, ttl, h, i, n) && TermPolled(h.polls, term) && term in h.reigns && i in h.full
             && i in h.seen
    requires term >= n.raft.Term() && n.raft.Accept(term, leader, io).1
    ensures var r := n.raft.Accept(term, leader, io).0;
            var h1 := h.(seen := h.seen[i := term]);
            && r.Term() == term && Receiving(c, ttl, h1, i, n.(raft := r), term) && Extends(h, h1, i)
            && r.commitIndex == n.raft.commitIndex && r.lastApplied == n.raft.lastApplied
  {
    hide HistoryOk, NodeOk, Extends;
    Accepts(c, ttl, h, i, n, term, leader, io);
  }

  /** OnAppendReq when the sender's term is refused. */
  lemma AppendRefused(h: History, i: int, n: Node, m: Msg, io: Disk, writes: nat)
    requires m.AppendReq? && i in h.full
    requires m.append.term < n.raft.Term() || !n.raft.Accept(m.append.term, m.append.leaderID, io).1
    ensures var r := if m.append.term < n.raft.Term() then n.raft
                     else n.raft.Accept(m.append.term, m.append.leaderID, io).0;
            OnAppendReq(h, i, n, m, io, writes)
            == Effect(n.(raft := r),
                      {AppendResp(m.append.leaderID, i, m.append.term, m.round,
                                  AppendResponse(n.raft.Term(), false, 0, 0, 0))},
                      h.(seen := h.seen[i := r.Term()]))
  {
    hide Raft.Accept, AppendEntries, FullAfterAppend, Raise;
    SameFull(h, i);
  }

  /** OnAppendReq when it is accepted. */
  lemma AppendAccepted(h: History, i: int, n: Node, m: Msg, io: Disk, writes: nat)
    requires m.AppendReq? && i in h.full
    requires m.append.term >= n.raft.Term() && n.raft.Accept(m.append.term, m.append.leaderID, io).1
    ensures var req := m.append;
            var r := n.raft.Accept(req.term, req.leaderID, io).0;
            var a := AppendEntries(n.log, req.prevLogIndex, req.prevLogTerm, req.entries, writes);
            var raft := if a.ok then r.FollowCommit(req.leaderCommit, a.matchIndex) else r;
            var e := OnAppendReq(h, i, n, m, io, writes);
            && raft.Term() == r.Term()
            && e.node == n.(raft := raft, log := a.log)
            && e.h == WithLog(h.(seen := h.seen[i := r.Term()]), i, FullAfterAppend(h.full[i], n.log, req, writes),
                              if a.ok then Raise(h.acks, i, req.term, a.matchIndex) else h.acks)
            && (exists resp :: e.out == {AppendResp(req.leaderID, i, req.term, m.round, resp)} && resp.term == r.Term()
                               && resp.success == a.ok && (a.ok ==> resp.matchIndex == a.matchIndex))
  {
    hide Raft.Accept, AppendEntries, FullAfterAppend, Raise;
    var (r, log, resp) := n.raft.HandleAppendEntries(n.log, m.append, io, writes);
    assert OnAppendReq(h, i, n, m, io, writes).out == {AppendResp(m.append.leaderID, i, m.append.term, m.round, resp)};
  }

  lemma AppendReqFacts(ttl: int, h: History, m: Msg)
    requires m.AppendReq? && MsgOk(ttl, h, m)
    ensures m.append.term in h.polls && m.append.term in h.reigns && m.round <= h.reigns[m.append.term].rounds
    ensures AppendReqOk(h.reigns, h.commits, m.append)
  {
  }

  lemma AppendReplyOk(c: Configuration, ttl: int, h: History, i: int, m: Msg, resp: AppendResponse)
    requires m.AppendReq? && HistoryOk(c, h) && i in h.seen && h.seen[i] == m.append.term
    requires m.append.term in h.reigns && m.round <= h.reigns[m.append.term].rounds && m.append.term in h.polls
    requires resp.term == m.append.term
    requires resp.success ==> (i, m.append.term) in h.acks && resp.matchIndex <= h.acks[(i, m.append.term)]
    ensures MsgOk(ttl, h, AppendResp(m.append.leaderID, i, m.append.term, m.round, resp))
  {
    hide HistoryOk, Evidence;
    ReplyIsEvidence(c, h, i, m.append.term, m.round);
  }

  lemma AppendAcceptedOk(c: Configuration, ttl: int, h: History, i: int, n: Node, m: Msg, io: Disk, writes: nat)
    requires HistoryOk(c, h) && NodeOk(c, ttl, h, i, n) && m.AppendReq? && MsgOk(ttl, h, m) && i in h.full
             && i in h.seen
    requires m.append.term >= n.raft.Term() && n.raft.Accept(m.append.term, m.append.leaderID, io).1
    ensures StepOk(c, ttl, h, i, OnAppendReq(h, i, n, m, io, writes))
  {
    hide HistoryOk, NodeOk, Extends, AppendReqOk, FullAfterAppend, AppendEntries, Raise, Raft.Accept,
         Raft.FollowCommit, OnAppendReq;
    hide Receiving, MsgOk;
    var req := m.append;
    AppendReqFacts(ttl, h, m);
    AppendAccepted(h, i, n, m, io, writes);
    AcceptedIs(c, ttl, h, i, n, req.term, req.leaderID, io);
    var n1 := n.(raft := n.raft.Accept(req.term, req.leaderID, io).0);
    var h1 := h.(seen := h.seen[i := req.term]);
    BatchOkFor(c, ttl, h1, i, n1, req, writes);
    var e := OnAppendReq(h, i, n, m, io, writes);
    ExtendsTwice(h, h1, e.h, i);
    var resp :| e.out == {AppendResp(req.leaderID, i, req.term, m.round, resp)} && resp.term == req.term
                && resp.success == AppendEntries(n.log, req.prevLogIndex, req.prevLogTerm, req.entries, writes).ok
                && (resp.success
                    ==> resp.matchIndex
                        == AppendEntries(n.log, req.prevLogIndex, req.prevLogTerm, req.entries, writes).matchIndex);
    AppendReplyOk(c, ttl, e.h, i, m, resp);
  }

  lemma AppendReqStepOk(c: Configuration, ttl: int, h: History, i: int, n: Node, m: Msg, io: Disk, writes: nat)
    requires HistoryOk(c, h) && NodeOk(c, ttl, h, i, n) && m.AppendReq? && MsgOk(ttl, h, m)
    ensures i in h.full && StepOk(c, ttl, h, i, OnAppendReq(h, i, n, m, io, writes))
  {
    hide HistoryOk, NodeOk, Extends, AppendReqOk, Evidence, Raft.Accept, OnAppendReq, BallotOk;
    var req := m.append;
    BallotFacts(c, ttl, h, i, n);
    AppendReqFacts(ttl, h, m);
    if req.term < n.raft.Term() || !n.raft.Accept(req.term, req.leaderID, io).1 {
      AppendRefused(h, i, n, m, io, writes);
      Refused(c, ttl, h, i, n, req.term, req.leaderID, io);
    } else {
      AppendAcceptedOk(c, ttl, h, i, n, m, io, writes);
    }
  }

  // ---- Snapshots ----

  lemma PrefixAgrees(a: Log, b: Log, k: nat)
    requires k <= |a| && a[..k] <= b
    ensures forall at :: 0 <= at < k ==> at < |b| && a[at] == b[at]
  {
    assert forall at :: 0 <= at < k ==> a[..k][at] == b[at];
  }

  /** A log that differs from the leader's at an index shares only prefixes below it. */
  lemma DivergesBefore(full: Log, leader: Log, index: int)
    requires 1 <= index <= |leader| && (index <= |full| ==> full[index - 1].term != leader[index - 1].term)
    ensures KeepsShared(full, leader, leader[..index])
  {
    forall k | 0 <= k <= |full| && full[..k] <= leader
      ensures k < index
    {
      PrefixAgrees(full, leader, k);
    }
  }

  /** The leader's prefix up to the snapshot, and whether this log already contains it. */
  lemma InstallLog(c: Configuration, ttl: int, h: History, i: int, n: Node, t: int, s: Snapshot)
    requires Receiving(c, ttl, h, i, n, t) && SnapReqOk(ttl, h.reigns, h.commits, t, s)
             && s.index > n.log.lastIncludedIndex
    ensures var leader := h.reigns[t].log;
            var full' := if n.log.Retains(s.index, s.term) then h.full[i] else Stored(h.reigns, t, s.index);
            && LogOk(h.reigns, full', n.log.ResetToSnapshot(s.index, s.term), t)
            && n.log.ResetToSnapshot(s.index, s.term).lastIncludedIndex == s.index
            && leader[..s.index] <= full' && KeepsShared(h.full[i], leader, full')
  {
    hide LedgerOk, HistoryOk, NodeOk, KeepsOk, AcksOk, MachineOk, CommitOk, CommittedBy;
    ReceivingFacts(c, ttl, h, i, n, t);
    var leader := h.reigns[t].log;
    var full := h.full[i];
    var prefix := leader[..s.index];
    AccessorsAgree(n.log, full, s.index);
    assert TermOf(prefix, |prefix|) == s.term;
    ResetRefines(n.log, full, prefix);
    if n.log.Retains(s.index, s.term) {
      LogMatching(h.reigns, full, leader, s.index - 1);
    } else {
      GroundedPrefix(h.reigns, leader, prefix, t + 1);
      DivergesBefore(full, leader, s.index);
    }
  }

  lemma InstallCommit(ttl: int, reigns: Reigns, commits: Commits, t: int, full: Log, base: int, r: Raft, s: Snapshot)
    requires t in reigns && SnapReqOk(ttl, reigns, commits, t, s) && reigns[t].log[..s.index] <= full
    requires CommitOk(reigns, commits, full, t, base, r.lastApplied, r.commitIndex) && r.lastApplied <= s.index
    ensures CommitOk(reigns, commits, full, t, s.index, r.Seed(s.index).lastApplied, r.Seed(s.index).commitIndex)
    ensures MachineOk(ttl, full, s.index, r.Seed(s.index).lastApplied, s.state, Some(s))
  {
    assert full[..s.index] == reigns[t].log[..s.index];
    assert full[s.index - 1] == reigns[t].log[s.index - 1];
  }

  lemma InstallOk(c: Configuration, ttl: int, h: History, i: int, n: Node, t: int, s: Snapshot)
    requires Receiving(c, ttl, h, i, n, t) && SnapReqOk(ttl, h.reigns, h.commits, t, s)
    requires s.index > n.log.lastIncludedIndex && n.raft.lastApplied <= s.index
    ensures var full' := if n.log.Retains(s.index, s.term) then h.full[i] else Stored(h.reigns, t, s.index);
            var acks' := Raise(h.acks, i, t, s.index);
            var h' := WithLog(h, i, full', acks');
            && HistoryOk(c, h') && Extends(h, h', i)
            && NodeOk(c, ttl, h', i, n.(raft := n.raft.Seed(s.index), log := n.log.ResetToSnapshot(s.index, s.term),
                                        machine := s.state, snapshot := Some(s)))
            && (i, t) in acks' && s.index <= acks'[(i, t)]
  {
    hide HistoryOk, NodeOk, LedgerOk, Extends, Grounded, TermsBelow, Represents, KeepsOk, AcksOk, MachineOk, CommitOk,
         LogOk, KeepsShared, CommittedBy;
    hide LogState.Retains, LogState.ResetToSnapshot, Raft.Seed, Stored, Fold;
    var full' := if n.log.Retains(s.index, s.term) then h.full[i] else Stored(h.reigns, t, s.index);
    var acks' := Raise(h.acks, i, t, s.index);
    ReceivingFacts(c, ttl, h, i, n, t);
    InstallLog(c, ttl, h, i, n, t, s);
    ReplacedStore(c, ttl, h, i, n, t, full');
    InstallCommit(ttl, h.reigns, h.commits, t, full', n.log.lastIncludedIndex, n.raft, s);
    AckHistory(c, h, i, t, s.index, full', true);
    KeepsAckedMore(h.reigns, h.acks, i, t, full', s.index);
    SeedShape(n.raft, s.index);
    LandedNode(c, ttl, h, i, n, t, full', n.log.ResetToSnapshot(s.index, s.term), n.raft.Seed(s.index), acks', s.state,
               Some(s));
  }

  lemma SeedShape(r: Raft, index: int)
    ensures r.Seed(index) == r.(commitIndex := r.Seed(index).commitIndex, lastApplied := r.Seed(index).lastApplied)
  {
  }

  /** A snapshot at or below the boundary: everything through it is already here. */
  lemma CoveredOk(c: Configuration, ttl: int, h: History, i: int, n: Node, t: int, k: int)
    requires Receiving(c, ttl, h, i, n, t) && 1 <= k <= n.log.lastIncludedIndex
    ensures var acks' := Raise(h.acks, i, t, k);
            var h' := WithLog(h, i, h.full[i], acks');
            && HistoryOk(c, h') && Extends(h, h', i) && NodeOk(c, ttl, h', i, n) && (i, t) in acks'
            && k <= acks'[(i, t)]
  {
    hide HistoryOk, NodeOk, LedgerOk, Extends, Grounded, TermsBelow, KeepsOk, AcksOk, MachineOk, CommitOk;
    ReceivingFacts(c, ttl, h, i, n, t);
    CommittedInLeader(c, ttl, h, i, n, t);
    var full := h.full[i];
    assert h.reigns[t].log[..k] == full[..n.raft.commitIndex][..k];
    AckHistory(c, h, i, t, k, full, true);
    KeepsAckedMore(h.reigns, h.acks, i, t, full, k);
    LandedNode(c, ttl, h, i, n, t, full, n.log, n.raft, Raise(h.acks, i, t, k), n.machine, n.snapshot);
  }

  lemma BoundaryFact(c: Configuration, ttl: int, h: History, i: int, n: Node)
    requires NodeOk(c, ttl, h, i, n)
    ensures n.log.firstIndex == n.log.lastIncludedIndex + 1
  {
  }

  /** The accepted half of OnSnapReq. */
  lemma SnapAccepted(c: Configuration, ttl: int, h: History, i: int, n: Node, m: Msg, io: Disk, install: Install)
    requires HistoryOk(c, h) && NodeOk(c, ttl, h, i, n) && m.SnapReq? && MsgOk(ttl, h, m) && i in h.full && i in h.seen
    requires m.ship.term >= n.raft.Term() && n.raft.Accept(m.ship.term, m.ship.leaderID, io).1
    requires install != PersistFails
    requires m.ship.snapshot.index > n.log.lastIncludedIndex ==> m.ship.snapshot.index >= n.raft.lastApplied
    ensures StepOk(c, ttl, h, i, OnSnapReq(h, i, n, m, io, install))
  {
    hide HistoryOk, NodeOk, Extends, SnapReqOk, Evidence, Raise, Raft.Accept, Raft.Seed, LogState.Retains,
         LogState.ResetToSnapshot, Stored;
    var req := m.ship;
    BoundaryFact(c, ttl, h, i, n);
    SnapIndexPositive(ttl, h, req);
    SameFull(h, i);
    AcceptedIs(c, ttl, h, i, n, req.term, req.leaderID, io);
    var n1 := n.(raft := n.raft.Accept(req.term, req.leaderID, io).0);
    var h1 := h.(seen := h.seen[i := req.term]);
    ReplyIsEvidence(c, h1, i, req.term, m.round);
    if req.snapshot.index <= n.log.lastIncludedIndex {
      CoveredOk(c, ttl, h1, i, n1, req.term, req.snapshot.index);
      ExtendsTwice(h, h1, OnSnapReq(h, i, n, m, io, install).h, i);
    } else if install == Completes {
      InstallOk(c, ttl, h1, i, n1, req.term, req.snapshot);
      SeedShape(n1.raft, req.snapshot.index);
      ExtendsTwice(h, h1, OnSnapReq(h, i, n, m, io, install).h, i);
    }
  }

  lemma SnapIndexPositive(ttl: int, h: History, req: SnapshotRequest)
    requires req.term in h.reigns && SnapReqOk(ttl, h.reigns, h.commits, req.term, req.snapshot)
    ensures req.snapshot.index >= 1
  {
  }

  /** OnSnapReq when the sender's term is refused. */
  lemma SnapRefused(h: History, i: int, n: Node, m: Msg, io: Disk, install: Install)
    requires m.SnapReq? && i in h.full && install != PersistFails
    requires m.ship.term < n.raft.Term() || !n.raft.Accept(m.ship.term, m.ship.leaderID, io).1
    requires m.ship.snapshot.index > n.log.lastIncludedIndex ==> m.ship.snapshot.index >= n.raft.lastApplied
    ensures var r := if m.ship.term < n.raft.Term() then n.raft else n.raft.Accept(m.ship.term, m.ship.leaderID, io).0;
            OnSnapReq(h, i, n, m, io, install)
            == Effect(n.(raft := r),
                      {SnapResp(m.ship.leaderID, i, m.ship.term, m.round, m.ship.snapshot.index,
                                SnapshotResponse(n.raft.Term(), false))},
                      h.(seen := h.seen[i := r.Term()]))
  {
    hide Raft.Accept, Raft.Seed, LogState.Retains, LogState.ResetToSnapshot, Stored, Raise;
  }

  lemma SnapIgnored(h: History, i: int, n: Node, m: Msg, io: Disk, install: Install)
    requires m.SnapReq? && i in h.full
    requires install == PersistFails
             || (m.ship.snapshot.index > n.log.lastIncludedIndex && m.ship.snapshot.index < n.raft.lastApplied)
    ensures OnSnapReq(h, i, n, m, io, install) == Idle(h, n)
  {
  }

  lemma SnapReqFacts(ttl: int, h: History, m: Msg)
    requires m.SnapReq? && MsgOk(ttl, h, m)
    ensures TermPolled(h.polls, m.ship.term)
  {
  }

  lemma SnapReqStepOk(c: Configuration, ttl: int, h: History, i: int, n: Node, m: Msg, io: Disk, install: Install)
    requires HistoryOk(c, h) && NodeOk(c, ttl, h, i, n) && m.SnapReq? && MsgOk(ttl, h, m)
    ensures i in h.full && StepOk(c, ttl, h, i, OnSnapReq(h, i, n, m, io, install))
  {
    hide HistoryOk, NodeOk, Extends, SnapReqOk, Raise, Raft.Accept, Raft.Seed, LogState.Retains,
         LogState.ResetToSnapshot, Stored;
    hide OnSnapReq, BallotOk, Evidence;
    var req := m.ship;
    BallotFacts(c, ttl, h, i, n);
    ExtendsSelf(h, i);
    SnapReqFacts(ttl, h, m);
    if install == PersistFails
        || (req.snapshot.index > n.log.lastIncludedIndex && req.snapshot.index < n.raft.lastApplied) {
      SnapIgnored(h, i, n, m, io, install);
    } else if req.term < n.raft.Term() || !n.raft.Accept(req.term, req.leaderID, io).1 {
      SnapRefused(h, i, n, m, io, install);
      Refused(c, ttl, h, i, n, req.term, req.leaderID, io);
    } else {
      SnapAccepted(c, ttl, h, i, n, m, io, install);
    }
  }

  // ---- Replies ----

  lemma ProgressOk(acks: Acks, i: int, term: int, r: Raft, peer: int, matched: int)
    requires MatchOk(acks, i, term, r.matchIndex) && (peer, term) in acks && matched <= acks[(peer, term)]
    ensures MatchOk(acks, i, term, r.UpdatePeerProgress(peer, matched).matchIndex)
  {
  }

  lemma HeardOk(c: Configuration, reigns: Reigns, adm: set<Read>, i: int, term: int, e: Engine, from: int, round: int,
                reported: bool)
    requires RoundsOk(c, reigns, adm, i, term, e) && from in c.Peers(i)
    requires reported ==> Evidence(reigns, adm, term, from, round)
    ensures RoundsOk(c, reigns, adm, i, term, Heard(e, from, round, reported))
  {
  }

  lemma ProgressNode(c: Configuration, ttl: int, h: History, i: int, n: Node, r: Raft, e: Engine)
    requires NodeOk(c, ttl, h, i, n) && n.raft.role == Leader
    requires r == n.raft.(matchIndex := r.matchIndex, nextIndex := r.nextIndex)
             && MatchOk(h.acks, i, n.raft.Term(), r.matchIndex)
    requires e == n.engine.(lastAck := e.lastAck) && RoundsOk(c, h.reigns, h.admitted, i, n.raft.Term(), e)
    ensures NodeOk(c, ttl, h, i, n.(raft := r, engine := e))
  {
    hide LogOk, KeepsOk, CommitOk, MachineOk, BallotOk, ClientsOk, PollingOk, RoundsOk, MatchOk;
  }

  lemma LeaderParts(c: Configuration, ttl: int, h: History, i: int, n: Node)
    requires NodeOk(c, ttl, h, i, n) && n.raft.role == Leader
    ensures n.raft.config == c && MatchOk(h.acks, i, n.raft.Term(), n.raft.matchIndex)
    ensures RoundsOk(c, h.reigns, h.admitted, i, n.raft.Term(), n.engine)
  {
  }

  lemma AppendRespOk(c: Configuration, ttl: int, h: History, i: int, n: Node, m: Msg, io: Disk, reported: bool)
    requires HistoryOk(c, h) && NodeOk(c, ttl, h, i, n) && m.AppendResp? && MsgOk(ttl, h, m)
    ensures StepOk(c, ttl, h, i, OnAppendResp(h, i, n, m, io, reported))
  {
    hide HistoryOk, NodeOk, Extends, RoundsOk, MatchOk, Evidence, Heard, Configuration.Peers;
    ExtendsSelf(h, i);
    IdFacts(c, ttl, h, i, n);
    var resp := m.appended;
    if n.raft.role != Leader || n.raft.Term() != m.sent || m.from !in n.raft.config.Peers(i) {
    } else if resp.term > m.sent {
      StepsDown(c, ttl, h, i, n, resp.term, 0, io, n.engine.(waiters := {}, pending := {}));
    } else {
      LeaderParts(c, ttl, h, i, n);
      if resp.success {
        ProgressOk(h.acks, i, n.raft.Term(), n.raft, m.from, resp.matchIndex);
      }
      HeardOk(c, h.reigns, h.admitted, i, n.raft.Term(), n.engine, m.from, m.round, reported && resp.term == m.sent);
      var e := OnAppendResp(h, i, n, m, io, reported);
      HeardShape(n.engine, m.from, m.round, reported && resp.term == m.sent);
      ProgressNode(c, ttl, h, i, n, e.node.raft, e.node.engine);
    }
  }

  lemma HeardShape(e: Engine, from: int, round: int, reported: bool)
    ensures Heard(e, from, round, reported) == e.(lastAck := Heard(e, from, round, reported).lastAck)
  {
  }

  lemma SnapRespOk(c: Configuration, ttl: int, h: History, i: int, n: Node, m: Msg, io: Disk, reported: bool)
    requires HistoryOk(c, h) && NodeOk(c, ttl, h, i, n) && m.SnapResp? && MsgOk(ttl, h, m)
    ensures StepOk(c, ttl, h, i, OnSnapResp(h, i, n, m, io, reported))
  {
    hide HistoryOk, NodeOk, Extends, RoundsOk, MatchOk, Evidence, Heard, Configuration.Peers;
    ExtendsSelf(h, i);
    IdFacts(c, ttl, h, i, n);
    var resp := m.installed;
    if n.raft.role != Leader || n.raft.Term() != m.sent || m.from !in n.raft.config.Peers(i) {
    } else if resp.term > m.sent {
      StepsDown(c, ttl, h, i, n, resp.term, 0, io, n.engine.(waiters := {}, pending := {}));
    } else {
      LeaderParts(c, ttl, h, i, n);
      if resp.success {
        ProgressOk(h.acks, i, n.raft.Term(), n.raft, m.from, m.index);
      }
      HeardOk(c, h.reigns, h.admitted, i, n.raft.Term(), n.engine, m.from, m.round, reported && resp.term == m.sent);
      var e := OnSnapResp(h, i, n, m, io, reported);
      HeardShape(n.engine, m.from, m.round, reported && resp.term == m.sent);
      ProgressNode(c, ttl, h, i, n, e.node.raft, e.node.engine);
    }
  }
}
