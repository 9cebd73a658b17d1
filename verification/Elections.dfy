/** Pre-vote, votes and promotion keep the invariant. */
module Elections {
  import opened Membership
  import opened Store
  import opened RaftLog
  import opened Consensus
  import opened Ledger
  import opened Cluster
  import opened Invariant
  import opened Frames

  // ---- Polls ----

  ghost predicate Carried(c: Configuration, h: History, i: int, n: Node) {
    c.HasQuorum(n.engine.preVotes) && SaidYes(h.grants, i, n.raft.Term() + 1, n.engine.preVotes)
  }

  lemma PollExtends(h: History, i: int, n: Node)
    ensures Extends(h, WithPoll(h, i, n), i)
  {
    hide OthersSame, SeenGrows, VotesGrow, BidsGrow, ReignsGrow, ReignsOf, AcksGrow, CommitsGrow, AdmittedGrows;
    ExtendsSelf(h, i);
  }

  lemma PollInserted(c: Configuration, grants: set<(int, int, int)>, polls: map<int, Poll>, t: int, poll: Poll)
    requires PollsOk(c, grants, polls) && c.HasQuorum(poll.quorum) && SaidYes(grants, poll.candidate, t, poll.quorum)
    ensures PollsOk(c, grants, polls[t := poll])
  {
    hide Configuration.HasQuorum, SaidYes;
  }

  lemma PollsGrow(c: Configuration, h: History, i: int, n: Node)
    requires PollsOk(c, h.grants, h.polls) && Carried(c, h, i, n)
    ensures PollsOk(c, h.grants, WithPoll(h, i, n).polls) && n.raft.Term() + 1 in WithPoll(h, i, n).polls
    ensures forall t :: t in h.polls ==> t in WithPoll(h, i, n).polls
  {
    hide Configuration.HasQuorum, SaidYes, PollsOk;
    PollInserted(c, h.grants, h.polls, n.raft.Term() + 1, Poll(i, n.engine.preVotes));
  }

  lemma YesesGrow(c: Configuration, grants: set<(int, int, int)>, more: set<(int, int, int)>, polls: map<int, Poll>)
    requires PollsOk(c, grants, polls) && grants <= more
    ensures PollsOk(c, more, polls)
  {
    hide Configuration.HasQuorum;
    forall t | t in polls
      ensures SaidYes(more, polls[t].candidate, t, polls[t].quorum)
    {
      assert SaidYes(grants, polls[t].candidate, t, polls[t].quorum);
    }
  }

  lemma PollAdded(c: Configuration, ttl: int, h: History, i: int, n: Node)
    requires HistoryOk(c, h) && NodeOk(c, ttl, h, i, n) && Carried(c, h, i, n)
    ensures var h' := WithPoll(h, i, n);
            HistoryOk(c, h') && Extends(h, h', i) && NodeOk(c, ttl, h', i, n) && n.raft.Term() + 1 in h'.polls
  {
    hide LedgerOk, SeenOk, ReadsOk, ReleasedOk, WrittenOk, PollsOk, Extends, Carried;
    hide LogOk, BallotOk, KeepsOk, CandidateOk, LeaderOk, RoundsOk, CommitOk, MachineOk, ClientsOk;
    PollExtends(h, i, n);
    PollsGrow(c, h, i, n);
  }

  lemma GrantAdded(c: Configuration, ttl: int, h: History, i: int, n: Node, g: (int, int, int))
    requires HistoryOk(c, h) && NodeOk(c, ttl, h, i, n)
    ensures var h' := h.(grants := h.grants + {g});
            HistoryOk(c, h') && Extends(h, h', i) && NodeOk(c, ttl, h', i, n)
  {
    hide OthersSame, SeenGrows, VotesGrow, BidsGrow, ReignsGrow, ReignsOf, AcksGrow, CommitsGrow, AdmittedGrows;
    hide LedgerOk, SeenOk, ReadsOk, ReleasedOk, WrittenOk, PollsOk;
    hide LogOk, BallotOk, KeepsOk, CandidateOk, LeaderOk, RoundsOk, CommitOk, MachineOk, ClientsOk;
    ExtendsSelf(h, i);
    YesesGrow(c, h.grants, h.grants + {g}, h.polls);
  }

  lemma PreVoteReqOk(c: Configuration, ttl: int, h: History, i: int, n: Node, m: Msg, sticky: bool)
    requires HistoryOk(c, h) && NodeOk(c, ttl, h, i, n) && m.PreVoteReq?
    ensures StepOk(c, ttl, h, i, OnPreVoteReq(h, i, n, m, sticky))
  {
    hide HistoryOk, NodeOk, Extends;
    BallotFacts(c, ttl, h, i, n);
    ExtendsSelf(h, i);
    GrantAdded(c, ttl, h, i, n, (i, m.vote.candidateID, m.vote.term));
  }

  // ---- Campaigning ----

  lemma KeepsHonours(reigns: Reigns, acks: Acks, i: int, term: int, u: int, full: Log)
    requires KeepsOk(reigns, acks, i, term, full) && u == term + 1
    ensures VoteHonours(reigns, acks, i, u, full)
  {
    forall t, k | (i, t) in acks && t < u && 0 <= k <= acks[(i, t)]
      ensures Carries(reigns, t, k, u, full)
    {
      assert StillHolds(reigns, t, k, term, full);
    }
  }

  lemma BidFacts(c: Configuration, ttl: int, h: History, i: int, n: Node)
    requires HistoryOk(c, h) && NodeOk(c, ttl, h, i, n)
    ensures var t := n.raft.Term() + 1;
            && i in h.full && i in h.seen && h.seen[i] < t && t >= 1 && i > 0
            && (i, t) !in h.bids && (i, t) !in h.votes
            && TermsBelow(h.full[i], t) && Grounded(h.reigns, h.full[i]) && WellIndexed(h.full[i])
            && VoteHonours(h.reigns, h.acks, i, t, h.full[i])
            && LedgerOk(c, h.votes, h.bids, h.reigns, h.acks, h.commits)
            && SeenOk(h.votes, h.bids, h.seen) && PollsOk(c, h.grants, h.polls)
  {
    hide KeepsOk, VoteHonours, Grounded, CommitOk, MachineOk, CandidateOk, LeaderOk, RoundsOk, ClientsOk, LedgerOk,
         SeenOk, PollsOk, ReadsOk, ReleasedOk, WrittenOk;
    KeepsHonours(h.reigns, h.acks, i, n.raft.Term(), n.raft.Term() + 1, h.full[i]);
  }

  lemma BidExtends(h: History, i: int, t: int)
    requires i in h.full && i in h.seen && h.seen[i] < t && (i, t) !in h.bids && (i, t) !in h.votes && i > 0
    requires SeenOk(h.votes, h.bids, h.seen)
    ensures Extends(h, WithBid(h, i, t), i)
            && SeenOk(WithBid(h, i, t).votes, WithBid(h, i, t).bids, WithBid(h, i, t).seen)
  {
    var h' := WithBid(h, i, t);
    assert h'.seen.Keys == h.seen.Keys;
  }

  lemma BidHistory(c: Configuration, ttl: int, h: History, i: int, n: Node)
    requires HistoryOk(c, h) && NodeOk(c, ttl, h, i, n)
    ensures i in h.full && HistoryOk(c, WithBid(h, i, n.raft.Term() + 1))
            && Extends(h, WithBid(h, i, n.raft.Term() + 1), i)
  {
    hide HistoryOk, NodeOk, Extends, LedgerOk, SeenOk, PollsOk, VoteHonours, Grounded;
    var t := n.raft.Term() + 1;
    BidFacts(c, ttl, h, i, n);
    var h' := WithBid(h, i, t);
    BidExtends(h, i, t);
    BidAdded(c, h.votes, h.bids, h.reigns, h.acks, h.commits, i, t, h.full[i]);
    VoteAdded(c, h.votes, h'.bids, h.reigns, h.acks, h.commits, i, t, Vote(i, h.full[i], t !in h.reigns));
    HistoryGrows(c, h, h', i);
  }

  lemma LeaderBid(c: Configuration, h: History, t: int)
    requires HistoryOk(c, h) && t in h.reigns
    ensures (h.reigns[t].leader, t) in h.bids
  {
    assert ReignOk(c, h.votes, h.bids, h.reigns, t);
  }

  lemma CandidateBallot(c: Configuration, h: History, i: int, n: Node, t: int)
    requires HistoryOk(c, h) && i in h.full && t == n.raft.Term() + 1
    requires BallotOk(h.votes, h.bids, i, n.raft.persistent, n.raft.disk)
    ensures var h' := WithBid(h, i, t);
            && BallotOk(h'.votes, h'.bids, i, Persistent(t, i), Persistent(t, i))
            && CandidateOk(h'.votes, h'.bids, h'.reigns, i, t, {i}, h.full[i])
  {
    if t in h.reigns {
      LeaderBid(c, h, t);
      assert h.reigns[t].leader != i;
    }
  }

  lemma CandidateNode(c: Configuration, ttl: int, h: History, i: int, n: Node, r: Raft)
    requires HistoryOk(c, h) && NodeOk(c, ttl, h, i, n)
    requires r == n.raft.(role := Candidate, leaderID := 0, votesFrom := {i},
                          persistent := Persistent(n.raft.Term() + 1, i), disk := Persistent(n.raft.Term() + 1, i))
    requires r.Term() in h.polls
    ensures NodeOk(c, ttl, WithBid(h, i, r.Term()), i, n.(raft := r))
  {
    hide HistoryOk, BallotOk, KeepsOk, CandidateOk, LeaderOk, RoundsOk, MachineOk, ClientsOk;
    var t := r.Term();
    CandidateBallot(c, h, i, n, t);
    KeepsLonger(h.reigns, h.acks, i, n.raft.Term(), t, h.full[i]);
    CommittedLonger(h.reigns, h.commits, h.full[i][..r.commitIndex], n.raft.Term(), t);
  }

  lemma CampaignAsks(c: Configuration, ttl: int, h: History, i: int, n: Node, m: Msg)
    requires n.raft.id == i && n.raft.config == c && i in h.full && Represents(n.log, h.full[i])
    requires n.raft.Term() + 1 in h.polls
    requires m in AskVotes(c.Peers(i).Keys, VoteRequest(n.raft.Term() + 1, i, n.log.LastIndex(), n.log.LastTerm()))
    ensures MsgOk(ttl, WithBid(h, i, n.raft.Term() + 1), m)
  {
    LastAgrees(n.log, h.full[i]);
  }

  /** Campaign, by whether the self-vote was saved. */
  lemma CampaignIs(h: History, i: int, n: Node, io: Disk)
    requires i in h.full && n.raft.id == i
    ensures var (r, ok) := n.raft.BecomeCandidate(io);
            var t := n.raft.Term() + 1;
            && WithPoll(h, i, n).full == h.full
            && (!ok ==> Campaign(h, i, n, io) == Effect(n.(raft := r), {}, WithPoll(h, i, n))
                        && r == n.raft.(disk := r.disk))
            && (ok ==> Campaign(h, i, n, io)
                       == Effect(n.(raft := r),
                                 AskVotes(n.raft.config.Peers(i).Keys,
                                          VoteRequest(t, i, n.log.LastIndex(), n.log.LastTerm())),
                                 WithBid(WithPoll(h, i, n), i, t))
                       && r == n.raft.(role := Candidate, leaderID := 0, votesFrom := {i},
                                       persistent := Persistent(t, i), disk := Persistent(t, i)))
  {
    hide AskVotes, Configuration.Peers, LogState.LastIndex, LogState.LastTerm, WithBid;
  }

  lemma CampaignSaved(c: Configuration, ttl: int, h: History, i: int, n: Node, io: Disk)
    requires HistoryOk(c, h) && NodeOk(c, ttl, h, i, n) && Carried(c, h, i, n) && n.raft.BecomeCandidate(io).1
             && i in h.full
    ensures StepOk(c, ttl, h, i, Campaign(h, i, n, io))
  {
    hide HistoryOk, NodeOk, Extends, Carried, MsgOk, Represents, LogState.LastIndex, LogState.LastTerm, AskVotes;
    hide WithBid, WithPoll, Configuration.Peers, Campaign, Raft.BecomeCandidate;
    var h1 := WithPoll(h, i, n);
    var t := n.raft.Term() + 1;
    IdFacts(c, ttl, h, i, n);
    CampaignIs(h, i, n, io);
    PollAdded(c, ttl, h, i, n);
    PollKeeps(h, i, n);
    BidHistory(c, ttl, h1, i, n);
    CandidateNode(c, ttl, h1, i, n, n.raft.BecomeCandidate(io).0);
    ExtendsTwice(h, h1, WithBid(h1, i, t), i);
    var e := Campaign(h, i, n, io);
    forall m | m in e.out
      ensures MsgOk(ttl, e.h, m)
    {
      CampaignAsks(c, ttl, h1, i, n, m);
    }
  }

  lemma PollKeeps(h: History, i: int, n: Node)
    ensures var h1 := WithPoll(h, i, n); h1 == h.(polls := h1.polls)
  {
  }

  lemma CampaignOk(c: Configuration, ttl: int, h: History, i: int, n: Node, io: Disk)
    requires HistoryOk(c, h) && NodeOk(c, ttl, h, i, n) && Carried(c, h, i, n)
    ensures i in h.full && StepOk(c, ttl, h, i, Campaign(h, i, n, io))
  {
    hide HistoryOk, NodeOk, Extends, BallotOk, Carried, WithPoll, RealVotes, Campaign, Represents;
    IdFacts(c, ttl, h, i, n);
    if n.raft.BecomeCandidate(io).1 {
      CampaignSaved(c, ttl, h, i, n, io);
    } else {
      var h1 := WithPoll(h, i, n);
      var t := n.raft.Term() + 1;
      PollAdded(c, ttl, h, i, n);
      VotesAreReal(c, h1);
      BallotFacts(c, ttl, h1, i, n);
      SavedBallot(h1.votes, h1.bids, i, n.raft, Persistent(t, i), io);
      CampaignIs(h, i, n, io);
      FailedSave(c, ttl, h1, i, n, n.raft.BecomeCandidate(io).0);
    }
  }

  lemma IdFacts(c: Configuration, ttl: int, h: History, i: int, n: Node)
    requires NodeOk(c, ttl, h, i, n)
    ensures n.raft.id == i && n.raft.config == c && i in h.full && i > 0 && Represents(n.log, h.full[i])
  {
  }

  lemma ExtendsTwice(a: History, b: History, d: History, i: int)
    requires Extends(a, b, i) && Extends(b, d, i) && b.admitted == a.admitted && b.reigns == a.reigns
             && b.commits == a.commits
    ensures Extends(a, d, i)
  {
  }

  // ---- Promotion ----

  /** No second leader: both would need the vote of the same server. */
  lemma TermIsFree(c: Configuration, ttl: int, h: History, i: int, n: Node)
    requires HistoryOk(c, h) && NodeOk(c, ttl, h, i, n) && n.raft.role == Candidate && c.HasQuorum(n.raft.votesFrom)
    ensures n.raft.Term() !in h.reigns
  {
    var t := n.raft.Term();
    if t in h.reigns {
      assert ReignOk(c, h.votes, h.bids, h.reigns, t);
      MajoritiesMeet(c.voters.Keys, h.reigns[t].electors, n.raft.votesFrom);
      assert false;
    }
  }

  lemma LongerLogCommit(ttl: int, reigns: Reigns, commits: Commits, full: Log, longer: Log, term: int, base: int,
                        applied: int,
                        commitIndex: int, machine: Machine, snapshot: Option<Snapshot>)
    requires CommitOk(reigns, commits, full, term, base, applied, commitIndex)
    requires MachineOk(ttl, full, base, applied, machine, snapshot) && full <= longer
    ensures CommitOk(reigns, commits, longer, term, base, applied, commitIndex)
    ensures MachineOk(ttl, longer, base, applied, machine, snapshot)
  {
    assert longer[..commitIndex] == full[..commitIndex];
    assert longer[..applied] == full[..applied];
    assert longer[..base] == full[..base];
  }

  lemma ReignExtends(h: History, i: int, n: Node, noop: Option<Command>)
    requires i in h.full && n.raft.Term() !in h.reigns
    ensures Extends(h, WithReign(h, i, n, noop), i)
  {
    assert WithReign(h, i, n, noop).full.Keys == h.full.Keys;
  }

  lemma CandidateFacts(c: Configuration, ttl: int, h: History, i: int, n: Node)
    requires HistoryOk(c, h) && NodeOk(c, ttl, h, i, n) && n.raft.role == Candidate
    ensures var t := n.raft.Term();
            && i in h.full && WellIndexed(h.full[i]) && (i, t) in h.bids && h.bids[(i, t)] == h.full[i]
            && (forall v :: v in n.raft.votesFrom ==> (v, t) in h.votes && h.votes[(v, t)].candidate == i)
            && LedgerOk(c, h.votes, h.bids, h.reigns, h.acks, h.commits)
            && SeenOk(h.votes, h.bids, h.seen) && PollsOk(c, h.grants, h.polls)
  {
  }

  lemma ReignHistory(c: Configuration, ttl: int, h: History, i: int, n: Node, noop: Option<Command>)
    requires HistoryOk(c, h) && NodeOk(c, ttl, h, i, n) && n.raft.role == Candidate && c.HasQuorum(n.raft.votesFrom)
    requires n.raft.Term() !in h.reigns
    ensures i in h.full && HistoryOk(c, WithReign(h, i, n, noop)) && Extends(h, WithReign(h, i, n, noop), i)
  {
    hide HistoryOk, NodeOk, LedgerOk, SeenOk, PollsOk, Extends, Configuration.HasQuorum;
    CandidateFacts(c, ttl, h, i, n);
    var t := n.raft.Term();
    var h' := WithReign(h, i, n, noop);
    assert WellIndexed(h'.full[i]);
    ReignAdded(c, h.votes, h.bids, h.reigns, h.acks, h.commits, t, h'.reigns[t]);
    ReignExtends(h, i, n, noop);
    HistoryGrows(c, h, h', i);
  }

  lemma KeepsThroughElection(a: Reigns, b: Reigns, acks: Acks, i: int, term: int, full: Log, longer: Log)
    requires KeepsOk(a, acks, i, term, full) && ReignsGrow(a, b) && AcksOk(a, acks) && full <= longer
    ensures KeepsOk(b, acks, i, term, longer)
  {
    forall t, k | (i, t) in acks && 0 <= k <= acks[(i, t)]
      ensures StillHolds(b, t, k, term, longer)
    {
      assert StillHolds(a, t, k, term, full);
      CarriesGrows(a, b, t, k, term + 1, full, longer);
    }
  }

  lemma GroundedByReign(c: Configuration, h: History, t: int)
    requires HistoryOk(c, h) && t in h.reigns
    ensures Grounded(h.reigns, h.reigns[t].log) && WellIndexed(h.reigns[t].log) && TermsBelow(h.reigns[t].log, t + 1)
  {
    assert ReignOk(c, h.votes, h.bids, h.reigns, t);
    forall p | 0 <= p < |h.reigns[t].log|
      ensures h.reigns[t].log[p].term < t + 1
    {
      ReignTerms(c, h.votes, h.bids, h.reigns, t, p);
    }
  }

  lemma FirstLogOk(h: History, i: int, n: Node, noop: Option<Command>, log: LogState)
    requires i in h.full && Represents(n.log, h.full[i]) && (noop.Some? ==> n.log.Aligned())
    requires log == if noop.Some? then n.log.AppendLeader(noop.value, n.raft.Term()) else n.log
    ensures Represents(log, FirstLog(h.full[i], n.raft.Term(), noop))
            && log.lastIncludedIndex == n.log.lastIncludedIndex
    ensures h.full[i] <= FirstLog(h.full[i], n.raft.Term(), noop)
    ensures noop.Some? ==> n.log.nextIndex == |h.full[i]| + 1
  {
    if noop.Some? {
      LeaderAppendRefines(n.log, h.full[i], noop.value, n.raft.Term());
    }
  }

  lemma NewLeaderOk(c: Configuration, h: History, h': History, i: int, n: Node, t: int, e: Engine,
                    matchIndex: map<int, int>)
    requires HistoryOk(c, h) && t !in h.reigns && t in h'.reigns && h'.commits == h.commits
    requires h'.reigns[t].leader == i && h'.reigns[t].rounds == e.roundSeq >= 0
    requires forall p :: p in matchIndex ==> p != i && matchIndex[p] == 0
    requires forall p :: p in e.lastAck ==> p in c.Peers(i) && e.lastAck[p] == 0
    requires e.noopIndex == 0 || e.noopIndex == |h'.reigns[t].init| + 1
    ensures LeaderOk(h'.reigns, h'.acks, h'.commits, i, t, h'.reigns[t].log, matchIndex, n.raft.commitIndex)
    ensures RoundsOk(c, h'.reigns, h'.admitted, i, t, e)
  {
    assert CommitsOk(c, h.reigns, h.acks, h.commits);
  }

  lemma CarriedOver(c: Configuration, ttl: int, h: History, h': History, i: int, n: Node, full: Log)
    requires HistoryOk(c, h) && NodeOk(c, ttl, h, i, n) && Extends(h, h', i) && h.full[i] <= full
    requires h'.acks == h.acks && h'.commits == h.commits && h'.admitted == h.admitted
    ensures KeepsOk(h'.reigns, h'.acks, i, n.raft.Term(), full)
    ensures CommitOk(h'.reigns, h'.commits, full, n.raft.Term(), n.log.lastIncludedIndex, n.raft.lastApplied,
                     n.raft.commitIndex)
    ensures MachineOk(ttl, full, n.log.lastIncludedIndex, n.raft.lastApplied, n.machine, n.snapshot)
    ensures ClientsOk(h'.reigns, h'.admitted, i, n.engine.waiters, n.engine.pending)
  {
    hide BallotOk, LeaderOk, CandidateOk, RoundsOk, LogOk, PollingOk, SeenOk, ReadsOk, WrittenOk, ReleasedOk, PollsOk;
    hide KeepsOk, MachineOk, ClientsOk, ReignsOk, BidsOk, VotesOk, PromisesOk, AcksOk, CommitsOk, CommittedBy;
    KeepsThroughElection(h.reigns, h'.reigns, h.acks, i, n.raft.Term(), h.full[i], full);
    LongerLogCommit(ttl, h.reigns, h.commits, h.full[i], full, n.raft.Term(), n.log.lastIncludedIndex,
                    n.raft.lastApplied,
                    n.raft.commitIndex, n.machine, n.snapshot);
    CommittedStays(c, h.reigns, h'.reigns, h.acks, h.commits, h.commits, full[..n.raft.commitIndex], n.raft.Term());
    ClientsStay(h.reigns, h'.reigns, h.admitted, h.admitted, i, n.engine.waiters, n.engine.pending);
  }

  lemma LeaderNode(c: Configuration, ttl: int, h: History, i: int, n: Node, noop: Option<Command>, n': Node)
    requires HistoryOk(c, h) && NodeOk(c, ttl, h, i, n) && n.raft.role == Candidate
    requires n.raft.Term() !in h.reigns && (noop.Some? ==> n.log.Aligned()) && HistoryOk(c, WithReign(h, i, n, noop))
    requires Extends(h, WithReign(h, i, n, noop), i)
    requires n'.raft == n.raft.BecomeLeader(n.raft.Term(), n.log.LastIndex()).0
    requires n'.log == if noop.Some? then n.log.AppendLeader(noop.value, n.raft.Term()) else n.log
    requires n'.engine == n.engine.(noopIndex := if noop.Some? then n.log.nextIndex else 0,
                                    lastAck := Uniform(c.Peers(i).Keys, 0))
    requires n'.machine == n.machine && n'.snapshot == n.snapshot
    ensures NodeOk(c, ttl, WithReign(h, i, n, noop), i, n')
  {
    hide HistoryOk, Extends, BallotOk, KeepsOk, CandidateOk, LeaderOk, RoundsOk, CommitOk, MachineOk, ClientsOk,
         PollingOk;
    hide Represents, Grounded, TermsBelow, WellIndexed, LogState.AppendLeader, LogState.LastIndex;
    var t := n.raft.Term();
    var h' := WithReign(h, i, n, noop);
    FirstLogOk(h, i, n, noop, n'.log);
    GroundedByReign(c, h', t);
    CarriedOver(c, ttl, h, h', i, n, h'.full[i]);
    NewLeaderOk(c, h, h', i, n, t, n'.engine, n'.raft.matchIndex);
  }

  lemma LeadOk(c: Configuration, ttl: int, h: History, i: int, n: Node, noop: Option<Command>)
    requires HistoryOk(c, h) && NodeOk(c, ttl, h, i, n) && n.raft.role == Candidate && c.HasQuorum(n.raft.votesFrom)
    ensures i in h.full && StepOk(c, ttl, h, i, Lead(h, i, n, noop))
  {
    hide HistoryOk, NodeOk, Extends, Represents, Configuration.HasQuorum, Configuration.Peers, Uniform;
    hide LogState.AppendLeader, LogState.LastIndex, WithReign;
    IdFacts(c, ttl, h, i, n);
    ExtendsSelf(h, i);
    if noop.Some? ==> n.log.Aligned() {
      TermIsFree(c, ttl, h, i, n);
      ReignHistory(c, ttl, h, i, n, noop);
      LeaderNode(c, ttl, h, i, n, noop, Lead(h, i, n, noop).node);
    }
  }
}
