/** The leader's tick, applying and compacting keep the invariant. */
module Committing {
  import opened Membership
  import opened Store
  import opened RaftLog
  import opened Consensus
  import opened Ledger
  import opened Cluster
  import opened Invariant
  import opened Frames
  import opened Elections
  import opened Replication
  import opened Receivers
  import opened Deliveries

  // ---- The quorum rule ----

  /** The set the quorum rule commits by. */
  function Holders(n: Node, q: int): set<int> {
    Holding(n.raft.config.All().Keys, n.raft.matchIndex[n.raft.id := n.log.LastIndex()], q)
  }

  ghost predicate Advances(n: Node)
    requires n.raft.config.voters != map[]
  {
    var q := n.raft.QuorumCandidate(n.log.LastIndex());
    n.raft.role == Leader && q > n.raft.commitIndex && n.log.TermAt(q) == n.raft.Term()
  }

  /** Everyone in the quorum has acknowledged the index in this term, the leader by its own log. */
  lemma HoldersAcked(acks: Acks, i: int, t: int, matchIndex: map<int, int>, all: set<int>, latest: int, q: int)
    requires MatchOk(acks, i, t, matchIndex) && 1 <= q <= latest
    ensures forall v :: v in Holding(all, matchIndex[i := latest], q) ==>
              (v, t) in Raise(acks, i, t, latest) && Raise(acks, i, t, latest)[(v, t)] >= q
  {
  }

  /** A quorum index of the current term is an entry of the leader's log. */
  lemma CandidateInLog(log: LogState, full: Log, q: int, t: int)
    requires Represents(log, full) && log.lastIncludedIndex <= q && log.TermAt(q) == t >= 1
    ensures 1 <= q <= |full| && full[q - 1].term == t
  {
    AccessorsAgree(log, full, q);
  }

  function WithCommit(h: History, t: int, q: int, quorum: set<int>): History {
    h.(commits := h.commits[(t, q) := quorum])
  }

  lemma CommitHistory(c: Configuration, h: History, i: int, t: int, q: int, quorum: set<int>)
    requires HistoryOk(c, h) && t in h.reigns && h.reigns[t].leader == i
    requires 1 <= q <= |h.reigns[t].log| && h.reigns[t].log[q - 1].term == t
    requires c.HasQuorum(quorum) && (forall v :: v in quorum ==> (v, t) in h.acks && h.acks[(v, t)] >= q)
    ensures HistoryOk(c, WithCommit(h, t, q, quorum)) && Extends(h, WithCommit(h, t, q, quorum), i)
  {
    hide LedgerOk, SeenOk, PollsOk, ReadsOk, WrittenOk, ReleasedOk;
    hide OthersSame, SeenGrows, VotesGrow, BidsGrow, ReignsGrow, ReignsOf, AcksGrow, AdmittedGrows;
    var h' := WithCommit(h, t, q, quorum);
    CommitAdded(c, h.votes, h.bids, h.reigns, h.acks, h.commits, t, q, quorum);
    ExtendsSelf(h, i);
    HistoryGrows(c, h, h', i);
  }

  lemma NowCommitted(h: History, t: int, q: int, quorum: set<int>, full: Log, base: int, applied: int, commitIndex: int)
    requires CommitOk(h.reigns, h.commits, full, t, base, applied, commitIndex) && t in h.reigns
             && h.reigns[t].log == full
    requires commitIndex < q <= |full|
    ensures CommitOk(h.reigns, WithCommit(h, t, q, quorum).commits, full, t, base, applied, q)
  {
    var commits' := WithCommit(h, t, q, quorum).commits;
    assert (t, q) in commits' && full[..q] <= Stored(h.reigns, t, q);
  }

  lemma CommitNode(c: Configuration, ttl: int, h: History, i: int, n: Node, q: int, quorum: set<int>)
    requires NodeOk(c, ttl, h, i, n) && n.raft.role == Leader && n.raft.commitIndex < q <= |h.full[i]|
    ensures NodeOk(c, ttl, WithCommit(h, n.raft.Term(), q, quorum), i, n.(raft := n.raft.(commitIndex := q)))
  {
    hide LogOk, BallotOk, KeepsOk, RoundsOk, CommitOk, MachineOk, ClientsOk, PollingOk, MatchOk;
    NowCommitted(h, n.raft.Term(), q, quorum, h.full[i], n.log.lastIncludedIndex, n.raft.lastApplied,
                 n.raft.commitIndex);
  }

  lemma SelfAck(c: Configuration, ttl: int, h: History, i: int, n: Node)
    requires HistoryOk(c, h) && NodeOk(c, ttl, h, i, n) && n.raft.role == Leader
    ensures var t := n.raft.Term();
            var h' := h.(acks := Raise(h.acks, i, t, |h.full[i]|));
            && HistoryOk(c, h') && Extends(h, h', i) && NodeOk(c, ttl, h', i, n)
  {
    hide HistoryOk, Extends, LedgerOk, LogOk, KeepsOk, RoundsOk, CommitOk, MachineOk, ClientsOk, PollingOk, Represents;
    var t := n.raft.Term();
    LeaderFacts(c, ttl, h, i, n);
    var full := h.full[i];
    assert h.reigns[t].log[..|full|] == full;
    SameFull(h, i);
    AckHistory(c, h, i, t, |full|, full, true);
    KeepsAckedMore(h.reigns, h.acks, i, t, full, |full|);
  }

  /** AdvanceCommitIndex when the rule allows it. */
  lemma AdvanceOk(c: Configuration, ttl: int, h: History, i: int, n: Node)
    requires HistoryOk(c, h) && NodeOk(c, ttl, h, i, n) && n.raft.config.voters != map[] && Advances(n)
    ensures var t := n.raft.Term();
            var q := n.raft.QuorumCandidate(n.log.LastIndex());
            var h' := WithCommit(h.(acks := Raise(h.acks, i, t, n.log.LastIndex())), t, q, Holders(n, q));
            && HistoryOk(c, h') && Extends(h, h', i) && NodeOk(c, ttl, h', i, n.(raft := n.raft.(commitIndex := q)))
  {
    hide HistoryOk, NodeOk, Extends, LedgerOk, Represents, MachineOk, MatchOk, Raise, Configuration.HasQuorum, Holding;
    var t := n.raft.Term();
    var q := n.raft.QuorumCandidate(n.log.LastIndex());
    LeaderFacts(c, ttl, h, i, n);
    LeaderParts(c, ttl, h, i, n);
    LastAgrees(n.log, h.full[i]);
    LedgerCommits(c, h);
    CandidateInLog(n.log, h.full[i], q, t);
    HoldersAcked(h.acks, i, t, n.raft.matchIndex, c.All().Keys, |h.full[i]|, q);
    SelfAck(c, ttl, h, i, n);
    var h1 := h.(acks := Raise(h.acks, i, t, |h.full[i]|));
    CommitHistory(c, h1, i, t, q, Holders(n, q));
    CommitNode(c, ttl, h1, i, n, q, Holders(n, q));
    ExtendsTwice(h, h1, WithCommit(h1, t, q, Holders(n, q)), i);
  }

  /** fireCommittedWaiters: what is answered is committed, what is kept is still waiting. */
  lemma AnsweredCommitted(reigns: Reigns, commits: Commits, admitted: set<Read>, i: int, t: int, full: Log, base: int,
                          applied: int,
                          commitIndex: int, waiters: set<Waiter>, pending: set<Read>)
    requires ClientsOk(reigns, admitted, i, waiters, pending) && t in reigns && reigns[t].log == full
    requires CommitOk(reigns, commits, full, t, base, applied, commitIndex)
    ensures WrittenOk(reigns, commits, Answered(waiters, commitIndex, t))
    ensures ClientsOk(reigns, admitted, i, StillWaiting(waiters, commitIndex, t), pending)
  {
    forall w | w in Answered(waiters, commitIndex, t)
      ensures EntryAt(reigns, w) && CommittedBy(reigns, commits, Stored(reigns, w.term, w.index), w.term)
    {
      CommittedByPrefix(reigns, commits, full[..commitIndex], t, w.index);
      assert full[..commitIndex][..w.index] == Stored(reigns, t, w.index);
    }
  }

  lemma WrittenHistory(c: Configuration, h: History, i: int, more: set<Waiter>)
    requires HistoryOk(c, h) && WrittenOk(h.reigns, h.commits, more)
    ensures HistoryOk(c, h.(written := h.written + more)) && Extends(h, h.(written := h.written + more), i)
  {
    hide LedgerOk, SeenOk, PollsOk, ReadsOk, ReleasedOk;
    hide OthersSame, SeenGrows, VotesGrow, BidsGrow, ReignsGrow, ReignsOf, AcksGrow, AdmittedGrows, CommitsGrow;
    ExtendsSelf(h, i);
  }

  /** The waiters fire against the commit index just reached. */
  lemma FireOk(c: Configuration, ttl: int, h: History, i: int, n: Node)
    requires HistoryOk(c, h) && NodeOk(c, ttl, h, i, n) && n.raft.role == Leader
    ensures var t, q := n.raft.Term(), n.raft.commitIndex;
            StepOk(c, ttl, h, i, Effect(n.(engine := n.engine.(waiters := StillWaiting(n.engine.waiters, q, t))), {},
                                        h.(written := h.written + Answered(n.engine.waiters, q, t))))
  {
    hide HistoryOk, Extends, LedgerOk, LogOk, KeepsOk, BallotOk, CommitOk, MachineOk, ClientsOk, WrittenOk, MatchOk,
         Represents, Answered, StillWaiting;
    LeaderFacts(c, ttl, h, i, n);
    var t, q := n.raft.Term(), n.raft.commitIndex;
    AnsweredCommitted(h.reigns, h.commits, h.admitted, i, t, h.full[i], n.log.lastIncludedIndex, n.raft.lastApplied, q,
                      n.engine.waiters, n.engine.pending);
    WrittenHistory(c, h, i, Answered(n.engine.waiters, q, t));
  }

  /** TickLeader with the commit index in place before the waiters fire. */
  lemma TickLeaderIs(h: History, i: int, n: Node)
    requires n.raft.config.voters != map[] && n.raft.role == Leader && n.raft.id == i
    ensures var t := n.raft.Term();
            var q := n.raft.QuorumCandidate(n.log.LastIndex());
            var h' := if Advances(n)
                then WithCommit(h.(acks := Raise(h.acks, i, t, n.log.LastIndex())), t, q, Holders(n, q)) else h;
            var r := if Advances(n) then n.raft.(commitIndex := q) else n.raft;
            && TickLeader(h, i, n).node
               == n.(raft := r, engine := n.engine.(waiters := StillWaiting(n.engine.waiters, r.commitIndex, t)))
            && TickLeader(h, i, n).h == h'.(written := h.written + Answered(n.engine.waiters, r.commitIndex, t))
            && TickLeader(h, i, n).out == {} && r.role == Leader
  {
    hide Raise, Holding, LogState.LastIndex, LogState.TermAt, Raft.QuorumCandidate, Answered, StillWaiting;
  }

  lemma TickLeaderOk(c: Configuration, ttl: int, h: History, i: int, n: Node)
    requires HistoryOk(c, h) && NodeOk(c, ttl, h, i, n) && n.raft.config.voters != map[]
    ensures StepOk(c, ttl, h, i, TickLeader(h, i, n))
  {
    hide HistoryOk, NodeOk, Extends, Answered, StillWaiting, Advances, WithCommit, Raise, Holders,
         Raft.QuorumCandidate, LogState.LastIndex;
    ExtendsSelf(h, i);
    if n.raft.role == Leader {
      hide TickLeader;
      IdFacts(c, ttl, h, i, n);
      TickLeaderIs(h, i, n);
      var q := n.raft.QuorumCandidate(n.log.LastIndex());
      if Advances(n) {
        AdvanceOk(c, ttl, h, i, n);
        var h1 := WithCommit(h.(acks := Raise(h.acks, i, n.raft.Term(), n.log.LastIndex())), n.raft.Term(), q,
                             Holders(n, q));
        WithCommitKeeps(h.(acks := Raise(h.acks, i, n.raft.Term(), n.log.LastIndex())), n.raft.Term(), q,
                        Holders(n, q));
        FireOk(c, ttl, h1, i, n.(raft := n.raft.(commitIndex := q)));
        ExtendsThen(h, h1, TickLeader(h, i, n).h, i);
      } else {
        FireOk(c, ttl, h, i, n);
      }
    } else {
      assert TickLeader(h, i, n) == Idle(h, n);
    }
  }

  lemma WithCommitKeeps(h: History, t: int, q: int, quorum: set<int>)
    ensures WithCommit(h, t, q, quorum) == h.(commits := WithCommit(h, t, q, quorum).commits)
  {
  }

  lemma ExtendsThen(a: History, b: History, d: History, i: int)
    requires Extends(a, b, i) && d == b.(written := d.written) && b.written <= d.written
    ensures Extends(a, d, i)
  {
  }

  // ---- Applying ----

  lemma ApplyOneOk(c: Configuration, ttl: int, h: History, i: int, n: Node)
    requires HistoryOk(c, h) && NodeOk(c, ttl, h, i, n)
    ensures StepOk(c, ttl, h, i, ApplyOne(h, ttl, n))
  {
    hide HistoryOk, Extends, BallotOk, KeepsOk, CandidateOk, LeaderOk, RoundsOk, ClientsOk, PollingOk, Grounded,
         TermsBelow, CommittedBy, Fold, Apply;
    ExtendsSelf(h, i);
    var k := n.raft.lastApplied;
    if k < n.raft.commitIndex {
      AccessorsAgree(n.log, h.full[i], k + 1);
      FoldOneMore(ttl, h.full[i], k);
    }
  }

  // ---- Compacting ----

  lemma CompactOk(c: Configuration, ttl: int, h: History, i: int, n: Node)
    requires HistoryOk(c, h) && NodeOk(c, ttl, h, i, n)
    ensures StepOk(c, ttl, h, i, Compact(h, n))
  {
    hide HistoryOk, Extends, BallotOk, KeepsOk, CandidateOk, LeaderOk, RoundsOk, ClientsOk, PollingOk, Grounded,
         TermsBelow, CommittedBy, Fold, LogState.TruncateBefore, LogState.TermAt, Represents;
    ExtendsSelf(h, i);
    var index := n.raft.lastApplied;
    AccessorsAgree(n.log, h.full[i], index);
    CompactionRefines(n.log, h.full[i], index);
  }
}
