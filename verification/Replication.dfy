/** Appending, sending and receiving entries keep the invariant. */
module Replication {
  import opened Membership
  import opened Store
  import opened RaftLog
  import opened Consensus
  import opened Ledger
  import opened Cluster
  import opened Invariant
  import opened Frames
  import opened Elections

  // ---- The leader's own log and rounds ----

  function WithLeaderLog(h: History, i: int, t: int, full: Log): History
    requires i in h.full && t in h.reigns
  {
    h.(full := h.full[i := full], reigns := h.reigns[t := h.reigns[t].(log := full)])
  }

  lemma LeaderFacts(c: Configuration, ttl: int, h: History, i: int, n: Node)
    requires HistoryOk(c, h) && NodeOk(c, ttl, h, i, n) && n.raft.role == Leader
    ensures var t := n.raft.Term();
            && i in h.full && n.raft.id == i && n.raft.config == c && t in h.reigns && h.reigns[t].leader == i
            && h.reigns[t].log == h.full[i]
            && Represents(n.log, h.full[i]) && t in h.polls && n.engine.roundSeq == h.reigns[t].rounds
            && LedgerOk(c, h.votes, h.bids, h.reigns, h.acks, h.commits) && c.voters != map[]
            && CommitOk(h.reigns, h.commits, h.full[i], t, n.log.lastIncludedIndex, n.raft.lastApplied,
                        n.raft.commitIndex)
            && MachineOk(ttl, h.full[i], n.log.lastIncludedIndex, n.raft.lastApplied, n.machine, n.snapshot)
  {
    assert ReignOk(c, h.votes, h.bids, h.reigns, n.raft.Term());
  }

  lemma ReignsFrame(h: History, h': History, i: int)
    requires OthersSame(h.full, h'.full, i) && ReignsGrow(h.reigns, h'.reigns) && ReignsOf(h.reigns, h'.reigns, i)
    requires h' == h.(full := h'.full, reigns := h'.reigns)
    ensures Extends(h, h', i)
  {
    hide OthersSame, SeenGrows, VotesGrow, BidsGrow, ReignsGrow, ReignsOf, AcksGrow, AdmittedGrows;
    ExtendsSelf(h, i);
  }

  lemma LeaderLogHistory(c: Configuration, h: History, i: int, t: int, full: Log)
    requires HistoryOk(c, h) && i in h.full && t in h.reigns && h.reigns[t].leader == i
    requires h.reigns[t].log <= full && WellIndexed(full)
             && (forall p :: |h.reigns[t].log| <= p < |full| ==> full[p].term == t)
    ensures HistoryOk(c, WithLeaderLog(h, i, t, full)) && Extends(h, WithLeaderLog(h, i, t, full), i)
  {
    hide LedgerOk, SeenOk, PollsOk, ReadsOk, WrittenOk, ReleasedOk, Extends;
    var h' := WithLeaderLog(h, i, t, full);
    ReignExtended(c, h.votes, h.bids, h.reigns, h.acks, h.commits, t, full, h.reigns[t].rounds);
    assert h'.reigns == h.reigns[t := h.reigns[t].(log := full, rounds := h.reigns[t].rounds)];
    assert h'.full.Keys == h.full.Keys;
    ReignsFrame(h, h', i);
    HistoryGrows(c, h, h', i);
  }

  lemma RoundsThrough(c: Configuration, a: Reigns, b: Reigns, adm: set<Read>, i: int, t: int, e: Engine, e': Engine)
    requires RoundsOk(c, a, adm, i, t, e) && ReignsGrow(a, b)
    requires e'.roundSeq == b[t].rounds && e'.noopIndex == e.noopIndex && e'.lastAck == e.lastAck
    ensures RoundsOk(c, b, adm, i, t, e')
  {
    forall p | p in e.lastAck && e.lastAck[p] > 0
      ensures Evidence(b, adm, t, p, e.lastAck[p])
    {
      EvidenceStays(a, b, adm, adm, t, p, e.lastAck[p]);
    }
  }

  /** The leader appended a client's command; its waiter names that very entry. */
  lemma ProposedNode(c: Configuration, ttl: int, h: History, i: int, n: Node, cmd: Command, n': Node)
    requires HistoryOk(c, h) && NodeOk(c, ttl, h, i, n) && n.raft.role == Leader && n.log.Aligned()
             && n.raft.Term() in h.reigns
    requires var full := h.full[i] + [LogEntry(|h.full[i]| + 1, n.raft.Term(), cmd)];
             var h' := WithLeaderLog(h, i, n.raft.Term(), full);
             HistoryOk(c, h') && Extends(h, h', i)
    requires n' == n.(log := n.log.AppendLeader(cmd, n.raft.Term()),
                      engine := n.engine.(waiters := n.engine.waiters + {Waiter(n.log.nextIndex, n.raft.Term(), cmd)}))
    ensures NodeOk(c, ttl, WithLeaderLog(h, i, n.raft.Term(),
                                         h.full[i] + [LogEntry(|h.full[i]| + 1, n.raft.Term(), cmd)]), i, n')
  {
    hide HistoryOk, LedgerOk, Extends, BallotOk, KeepsOk, CandidateOk, CommitOk, MachineOk, PollingOk, RoundsOk,
         ClientsOk, LeaderOk;
    hide Grounded, TermsBelow, Represents, WellIndexed, ReignsGrow, LogState.AppendLeader;
    var t := n.raft.Term();
    var full := h.full[i] + [LogEntry(|h.full[i]| + 1, t, cmd)];
    var h' := WithLeaderLog(h, i, t, full);
    LeaderFacts(c, ttl, h, i, n);
    LeaderAppendRefines(n.log, h.full[i], cmd, t);
    GroundedByReign(c, h', t);
    CarriedOver(c, ttl, h, h', i, n, full);
    LeaderLogGrows(h, i, t, full, n.raft.matchIndex, n.raft.commitIndex);
    ExtendsReigns(h, h', i);
    RoundsThrough(c, h.reigns, h'.reigns, h.admitted, i, t, n.engine, n'.engine);
    RepresentsLength(n.log, h.full[i]);
    WaiterAdded(h'.reigns, h.admitted, i, n.engine.waiters, n.engine.pending, Waiter(n.log.nextIndex, t, cmd));
    assert n'.log.lastIncludedIndex == n.log.lastIncludedIndex by {
      AppendKeepsBase(n.log, cmd, t);
    }
  }

  lemma LeaderLogGrows(h: History, i: int, t: int, full: Log, matchIndex: map<int, int>, commitIndex: int)
    requires i in h.full && t in h.reigns
             && LeaderOk(h.reigns, h.acks, h.commits, i, t, h.full[i], matchIndex, commitIndex)
    ensures var h' := WithLeaderLog(h, i, t, full);
            LeaderOk(h'.reigns, h'.acks, h'.commits, i, t, full, matchIndex, commitIndex)
  {
    hide MatchOk;
  }

  lemma ExtendsReigns(h: History, h': History, i: int)
    requires Extends(h, h', i)
    ensures ReignsGrow(h.reigns, h'.reigns)
  {
  }

  lemma AppendKeepsBase(s: LogState, cmd: Command, t: int)
    ensures s.AppendLeader(cmd, t).lastIncludedIndex == s.lastIncludedIndex
  {
  }

  lemma WaiterAdded(reigns: Reigns, adm: set<Read>, i: int, waiters: set<Waiter>, pending: set<Read>, w: Waiter)
    requires ClientsOk(reigns, adm, i, waiters, pending) && EntryAt(reigns, w)
    ensures ClientsOk(reigns, adm, i, waiters + {w}, pending)
  {
  }

  lemma RepresentsLength(s: LogState, full: Log)
    requires Represents(s, full)
    ensures s.firstIndex + |s.cache| == |full| + 1
  {
  }

  lemma ProposeOk(c: Configuration, ttl: int, h: History, i: int, n: Node, cmd: Command, logged: bool)
    requires HistoryOk(c, h) && NodeOk(c, ttl, h, i, n)
    ensures i in h.full && StepOk(c, ttl, h, i, Propose(h, i, n, cmd, logged))
  {
    hide HistoryOk, NodeOk, Extends, Represents, LedgerOk, CommitOk, MachineOk, LogState.AppendLeader;
    IdFacts(c, ttl, h, i, n);
    ExtendsSelf(h, i);
    var t := n.raft.Term();
    if n.raft.role == Leader && logged && n.log.Aligned() && t in h.reigns {
      LeaderFacts(c, ttl, h, i, n);
      var full := h.full[i] + [LogEntry(|h.full[i]| + 1, t, cmd)];
      GroundedByReign(c, h, t);
      LeaderLogHistory(c, h, i, t, full);
      ProposedNode(c, ttl, h, i, n, cmd, Propose(h, i, n, cmd, logged).node);
    }
  }

  lemma RoundHistory(c: Configuration, h: History, i: int, n: Node)
    requires HistoryOk(c, h) && n.raft.Term() in h.reigns && h.reigns[n.raft.Term()].leader == i
    requires n.engine.roundSeq == h.reigns[n.raft.Term()].rounds
    ensures HistoryOk(c, ClaimRound(h, n)) && Extends(h, ClaimRound(h, n), i)
  {
    hide LedgerOk, SeenOk, PollsOk, ReadsOk, WrittenOk, ReleasedOk, Extends;
    var t := n.raft.Term();
    var h' := ClaimRound(h, n);
    GroundedByReign(c, h, t);
    ReignExtended(c, h.votes, h.bids, h.reigns, h.acks, h.commits, t, h.reigns[t].log, n.engine.roundSeq + 1);
    assert h'.reigns == h.reigns[t := h.reigns[t].(log := h.reigns[t].log, rounds := n.engine.roundSeq + 1)];
    ReignsFrame(h, h', i);
    HistoryGrows(c, h, h', i);
  }

  lemma RoundNode(c: Configuration, ttl: int, h: History, i: int, n: Node)
    requires HistoryOk(c, h) && NodeOk(c, ttl, h, i, n) && n.raft.role == Leader
    requires Extends(h, ClaimRound(h, n), i)
    ensures NodeOk(c, ttl, ClaimRound(h, n), i, n.(engine := n.engine.(roundSeq := n.engine.roundSeq + 1)))
  {
    hide HistoryOk, BallotOk, KeepsOk, CandidateOk, CommitOk, MachineOk, PollingOk, TermsBelow, Represents, MatchOk,
         ClientsOk, Grounded;
    var t := n.raft.Term();
    var h' := ClaimRound(h, n);
    var e := n.engine.(roundSeq := n.engine.roundSeq + 1);
    GroundedGrows(h.reigns, h'.reigns, h.full[i]);
    CarriedOver(c, ttl, h, h', i, n, h.full[i]);
    RoundsThrough(c, h.reigns, h'.reigns, h.admitted, i, t, n.engine, e);
  }

  /** The batch a leader builds is a stretch of its log or, below its boundary, an empty probe. */
  lemma BuiltBatch(n: Node, full: Log, peer: int)
    requires Represents(n.log, full)
    ensures BatchOk(full, BuildAppend(n, peer))
  {
    var next := n.raft.NextIndexFor(peer);
    var prev := next - 1;
    if prev >= n.log.lastIncludedIndex {
      AccessorsAgree(n.log, full, prev);
      EntriesAgree(n.log, full, next);
    }
  }

  /** Claiming a round changes nothing else about the reign. */
  lemma ClaimedIs(h: History, n: Node)
    requires n.raft.Term() in h.reigns && n.engine.roundSeq == h.reigns[n.raft.Term()].rounds
    ensures var t, h' := n.raft.Term(), ClaimRound(h, n);
            && h' == h.(reigns := h'.reigns) && ReignsGrow(h.reigns, h'.reigns) && t in h'.reigns
            && h'.reigns[t] == h.reigns[t].(rounds := n.engine.roundSeq + 1)
  {
  }

  lemma BuiltAppend(c: Configuration, ttl: int, h: History, i: int, n: Node, peer: int)
    requires HistoryOk(c, h) && NodeOk(c, ttl, h, i, n) && n.raft.role == Leader && peer in c.Peers(i)
    ensures MsgOk(ttl, ClaimRound(h, n), AppendReq(peer, n.engine.roundSeq + 1, BuildAppend(n, peer)))
  {
    hide HistoryOk, NodeOk, LedgerOk, MachineOk, BatchOk, Represents, LogState.TermAt, LogState.EntriesFrom,
         Raft.NextIndexFor, ClaimRound, ReignsGrow, CommittedBy, CommitsOk, AcksOk;
    LeaderFacts(c, ttl, h, i, n);
    BuiltBatch(n, h.full[i], peer);
    ClaimedIs(h, n);
    LedgerCommits(c, h);
    CommittedStays(c, h.reigns, ClaimRound(h, n).reigns, h.acks, h.commits, h.commits,
                   h.full[i][..n.raft.commitIndex], n.raft.Term());
  }

  lemma LedgerCommits(c: Configuration, h: History)
    requires HistoryOk(c, h)
    ensures CommitsOk(c, h.reigns, h.acks, h.commits) && AcksOk(h.reigns, h.acks)
    ensures forall t :: t in h.reigns ==> t >= 1 && h.reigns[t].init <= h.reigns[t].log
  {
    assert forall t :: t in h.reigns ==> ReignOk(c, h.votes, h.bids, h.reigns, t);
  }

  lemma SendAppendOk(c: Configuration, ttl: int, h: History, i: int, n: Node, peer: int)
    requires HistoryOk(c, h) && NodeOk(c, ttl, h, i, n)
    ensures StepOk(c, ttl, h, i, SendAppend(h, i, n, peer))
  {
    hide HistoryOk, NodeOk, Extends, LedgerOk, CommitOk, MachineOk, Represents, MsgOk, ClaimRound, BuildAppend,
         Configuration.Peers;
    ExtendsSelf(h, i);
    IdFacts(c, ttl, h, i, n);
    if n.raft.role == Leader && peer in c.Peers(i) {
      LeaderFacts(c, ttl, h, i, n);
      RoundHistory(c, h, i, n);
      RoundNode(c, ttl, h, i, n);
      BuiltAppend(c, ttl, h, i, n, peer);
    }
  }

  lemma OwnSnapshotOk(ttl: int, reigns: Reigns, commits: Commits, t: int, base: int, applied: int, commitIndex: int,
                      machine: Machine, snapshot: Option<Snapshot>)
    requires t in reigns && CommitOk(reigns, commits, reigns[t].log, t, base, applied, commitIndex)
    requires MachineOk(ttl, reigns[t].log, base, applied, machine, snapshot) && snapshot.Some?
    ensures SnapReqOk(ttl, reigns, commits, t, snapshot.value)
  {
    var full := reigns[t].log;
    CommittedByPrefix(reigns, commits, full[..commitIndex], t, base);
    assert full[..commitIndex][..base] == full[..base];
  }

  lemma ShippedSnapshot(c: Configuration, ttl: int, h: History, i: int, n: Node, peer: int)
    requires HistoryOk(c, h) && NodeOk(c, ttl, h, i, n) && n.raft.role == Leader && peer in c.Peers(i)
             && n.snapshot.Some?
    ensures MsgOk(ttl, ClaimRound(h, n),
                  SnapReq(peer, n.engine.roundSeq + 1, SnapshotRequest(n.raft.Term(), i, n.snapshot.value)))
  {
    hide HistoryOk, NodeOk, LedgerOk, Represents, CommitOk, MachineOk, SnapReqOk, CommitsOk, AcksOk, ClaimRound,
         ReignsGrow;
    LeaderFacts(c, ttl, h, i, n);
    ClaimedIs(h, n);
    OwnSnapshotOk(ttl, h.reigns, h.commits, n.raft.Term(), n.log.lastIncludedIndex, n.raft.lastApplied,
                  n.raft.commitIndex, n.machine, n.snapshot);
    LedgerCommits(c, h);
    SnapReqStays(c, ttl, h.reigns, ClaimRound(h, n).reigns, h.acks, h.commits, h.commits,
                 SnapshotRequest(n.raft.Term(), i, n.snapshot.value));
  }

  lemma SendSnapshotOk(c: Configuration, ttl: int, h: History, i: int, n: Node, peer: int)
    requires HistoryOk(c, h) && NodeOk(c, ttl, h, i, n)
    ensures StepOk(c, ttl, h, i, SendSnapshot(h, i, n, peer))
  {
    hide HistoryOk, NodeOk, Extends, LedgerOk, CommitOk, MachineOk, Represents, MsgOk, ClaimRound, Configuration.Peers,
         Raft.NextIndexFor;
    ExtendsSelf(h, i);
    IdFacts(c, ttl, h, i, n);
    if n.raft.role == Leader && peer in c.Peers(i) && n.snapshot.Some? {
      LeaderFacts(c, ttl, h, i, n);
      RoundHistory(c, h, i, n);
      RoundNode(c, ttl, h, i, n);
      ShippedSnapshot(c, ttl, h, i, n, peer);
    }
  }
}
