/** The election messages: each receiver keeps the invariant. */
module Ballots {
  import opened Membership
  import opened Store
  import opened RaftLog
  import opened Consensus
  import opened Ledger
  import opened Cluster
  import opened Invariant
  import opened Frames
  import opened Elections

  lemma AloneIsQuorum(c: Configuration, i: int)
    requires c.Peers(i) == map[] && i in c.All() && c.voters != map[]
    ensures c.HasQuorum({i})
  {
    assert forall v :: v in c.All() && v != i ==> v in c.Peers(i);
    assert c.voters.Keys <= {i} && c.oldVoters.Keys <= {i} by {
      assert forall v :: v in c.voters || v in c.oldVoters ==> v in c.All();
    }
    assert c.voters.Keys == {i} by {
      assert c.voters.Keys == {} ==> c.voters == map[];
    }
    assert c.IsJoint() ==> c.oldVoters.Keys == {i} by {
      assert c.oldVoters.Keys == {} ==> c.oldVoters == map[];
    }
    assert {i} * {i} == {i};
  }

  lemma Polling(c: Configuration, ttl: int, h: History, i: int, n: Node, poll: int, votes: set<int>)
    requires NodeOk(c, ttl, h, i, n) && poll <= n.raft.Term() + 1
    requires forall v :: v in votes ==> v == i || (v, i, poll) in h.grants
    ensures NodeOk(c, ttl, h, i, n.(engine := n.engine.(preVoteTerm := poll, preVotes := votes)))
  {
    hide LogOk, BallotOk, KeepsOk, CandidateOk, LeaderOk, CommitOk, MachineOk, ClientsOk;
  }

  lemma MemberFacts(c: Configuration, ttl: int, h: History, i: int, n: Node)
    requires HistoryOk(c, h) && NodeOk(c, ttl, h, i, n)
    ensures n.raft.config == c && n.raft.id == i && i in c.All() && c.voters != map[] && i in h.full
    ensures n.engine.preVoteTerm <= n.raft.Term() + 1 && n.raft.Term() >= 0
    ensures n.engine.preVoteTerm != 0 ==> forall v :: v in n.engine.preVotes
                                                    ==> v == i || (v, i, n.engine.preVoteTerm) in h.grants
  {
  }

  lemma CampaignWins(c: Configuration, ttl: int, h: History, i: int, n: Node, io: Disk, noop: Option<Command>)
    requires HistoryOk(c, h) && NodeOk(c, ttl, h, i, n) && Carried(c, h, i, n) && c.HasQuorum({i}) && i in h.full
    requires n.raft.BecomeCandidate(io).1
    ensures var e := Campaign(h, i, n, io); i in e.h.full && StepOk(c, ttl, h, i, Lead(e.h, i, e.node, noop))
  {
    hide HistoryOk, NodeOk, Carried, Configuration.HasQuorum, AskVotes, Lead, MsgOk;
    hide OthersSame, SeenGrows, VotesGrow, BidsGrow, ReignsGrow, ReignsOf, AcksGrow, CommitsGrow, AdmittedGrows;
    MemberFacts(c, ttl, h, i, n);
    var e := Campaign(h, i, n, io);
    CampaignOk(c, ttl, h, i, n, io);
    LeadOk(c, ttl, e.h, i, e.node, noop);
    ExtendsTwice(h, e.h, Lead(e.h, i, e.node, noop).h, i);
  }

  lemma StartPreVoteOk(c: Configuration, ttl: int, h: History, i: int, n: Node, io: Disk, noop: Option<Command>)
    requires HistoryOk(c, h) && NodeOk(c, ttl, h, i, n)
    ensures i in h.full && StepOk(c, ttl, h, i, StartPreVote(h, i, n, io, noop))
  {
    hide HistoryOk, NodeOk, Extends, Configuration.HasQuorum, Configuration.Peers, AskVotes, Lead, Campaign,
         LogState.LastIndex, LogState.LastTerm;
    MemberFacts(c, ttl, h, i, n);
    ExtendsSelf(h, i);
    Polling(c, ttl, h, i, n, n.raft.Term() + 1, {i});
    if n.raft.role != Leader && c.Peers(i) == map[] {
      AloneIsQuorum(c, i);
      var n1 := n.(engine := n.engine.(preVotes := {i}));
      Polling(c, ttl, h, i, n, n.engine.preVoteTerm, {i});
      CampaignOk(c, ttl, h, i, n1, io);
      CampaignOutcome(h, i, n1, io);
      if n1.raft.BecomeCandidate(io).1 {
        CampaignWins(c, ttl, h, i, n1, io, noop);
      }
    }
  }

  lemma CampaignOutcome(h: History, i: int, n: Node, io: Disk)
    requires i in h.full
    ensures var r := Campaign(h, i, n, io).node.raft;
            r.role == Candidate && r.Term() == n.raft.Term() + 1 <==> n.raft.BecomeCandidate(io).1
  {
  }

  lemma PreVoteRespOk(c: Configuration, ttl: int, h: History, i: int, n: Node, m: Msg, io: Disk)
    requires HistoryOk(c, h) && NodeOk(c, ttl, h, i, n) && m.PreVoteResp? && m.to == i && MsgOk(ttl, h, m)
    ensures i in h.full && StepOk(c, ttl, h, i, OnPreVoteResp(h, i, n, m, io))
  {
    hide HistoryOk, NodeOk, Extends, Configuration.HasQuorum, Campaign;
    MemberFacts(c, ttl, h, i, n);
    ExtendsSelf(h, i);
    if m.poll != n.engine.preVoteTerm || n.raft.role == Leader || n.raft.Term() >= m.poll {
    } else if m.term > n.raft.Term() {
      StepsDown(c, ttl, h, i, n, m.term, 0, io, n.engine.(preVoteTerm := 0));
    } else if m.granted {
      var votes := n.engine.preVotes + {m.from};
      Polling(c, ttl, h, i, n, m.poll, votes);
      if c.HasQuorum(votes) {
        var n1 := n.(engine := n.engine.(preVoteTerm := 0, preVotes := votes));
        EngineShrinks(c, ttl, h, i, n.(engine := n.engine.(preVotes := votes)), n1.engine);
        CampaignOk(c, ttl, h, i, n1, io);
      }
    }
  }

  // ---- RequestVote ----

  function WithVote(h: History, i: int, t: int, candidate: int): History
    requires i in h.full
  {
    if (i, t) in h.votes then h else h.(votes := h.votes[(i, t) := Vote(candidate, h.full[i], t !in h.reigns)])
  }

  lemma Honours(reigns: Reigns, acks: Acks, i: int, term: int, u: int, full: Log)
    requires KeepsOk(reigns, acks, i, term, full) && (u > term || (u == term && u !in reigns))
    ensures VoteHonours(reigns, acks, i, u, full)
  {
    forall t, k | (i, t) in acks && t < u && 0 <= k <= acks[(i, t)]
      ensures Carries(reigns, t, k, u, full)
    {
      assert StillHolds(reigns, t, k, term, full);
      if Unbroken(reigns, Stored(reigns, t, k), t, u) {
        assert Unbroken(reigns, Stored(reigns, t, k), t, term + 1);
      }
    }
  }

  lemma VoteExtends(h: History, i: int, t: int, candidate: int)
    requires i in h.full
    ensures Extends(h, WithVote(h, i, t, candidate), i)
  {
    hide OthersSame, SeenGrows, BidsGrow, ReignsGrow, ReignsOf, AcksGrow, CommitsGrow, AdmittedGrows;
    ExtendsSelf(h, i);
  }

  /** A grant the member's own record allows is added to the ledger. */
  lemma VoteHistory(c: Configuration, h: History, i: int, t: int, candidate: int)
    requires HistoryOk(c, h) && i in h.full && i in h.seen && t <= h.seen[i]
    requires (candidate, t) in h.bids && AtLeastAsGood(h.bids[(candidate, t)], h.full[i])
             && Grounded(h.reigns, h.full[i])
    requires t !in h.reigns ==> VoteHonours(h.reigns, h.acks, i, t, h.full[i])
    ensures HistoryOk(c, WithVote(h, i, t, candidate)) && Extends(h, WithVote(h, i, t, candidate), i)
  {
    hide LedgerOk, ReadsOk, ReleasedOk, WrittenOk, PollsOk, Extends, VoteHonours, Grounded, AtLeastAsGood;
    VoteExtends(h, i, t, candidate);
    if (i, t) !in h.votes {
      VoteAdded(c, h.votes, h.bids, h.reigns, h.acks, h.commits, i, t, Vote(candidate, h.full[i], t !in h.reigns));
    }
  }

  /** The member's records agree with the vote it just granted. */
  lemma VotedNode(c: Configuration, ttl: int, h: History, i: int, n: Node, candidate: int)
    requires NodeOk(c, ttl, h, i, n) && n.raft.persistent.votedFor == candidate != NOBODY && RealVotes(h.votes)
    ensures NodeOk(c, ttl, WithVote(h, i, n.raft.Term(), candidate), i, n)
    ensures WithVote(h, i, n.raft.Term(), candidate).votes[(i, n.raft.Term())].candidate == candidate
  {
    hide LogOk, KeepsOk, LeaderOk, RoundsOk, CommitOk, MachineOk, ClientsOk, PollingOk;
  }

  lemma VoteReqFacts(c: Configuration, ttl: int, h: History, i: int, n: Node, m: Msg)
    requires HistoryOk(c, h) && NodeOk(c, ttl, h, i, n) && m.VoteReq? && MsgOk(ttl, h, m)
    ensures i in h.full && Grounded(h.reigns, h.full[i]) && KeepsOk(h.reigns, h.acks, i, n.raft.Term(), h.full[i])
    ensures m.vote.candidateID > 0 && (m.vote.candidateID, m.vote.term) in h.bids && m.vote.term in h.polls
    ensures UpToDate(m.vote.lastLogTerm, m.vote.lastLogIndex, n.log.LastTerm(), n.log.LastIndex())
            ==> AtLeastAsGood(h.bids[(m.vote.candidateID, m.vote.term)], h.full[i])
  {
    LastAgrees(n.log, h.full[i]);
  }

  /** Granting: adopt the term and the vote, then record it. */
  lemma GrantOk(c: Configuration, ttl: int, h: History, i: int, n: Node, r: Raft, candidate: int)
    requires HistoryOk(c, h) && i in h.full && i in h.seen && h.seen[i] == n.raft.Term()
    requires r.persistent.votedFor == candidate && candidate > 0 && r.Term() >= n.raft.Term()
    requires NodeOk(c, ttl, h.(seen := h.seen[i := r.Term()]), i, n.(raft := r))
    requires KeepsOk(h.reigns, h.acks, i, n.raft.Term(), h.full[i]) && Grounded(h.reigns, h.full[i])
    requires (candidate, r.Term()) in h.bids && AtLeastAsGood(h.bids[(candidate, r.Term())], h.full[i])
    ensures var h' := WithVote(h.(seen := h.seen[i := r.Term()]), i, r.Term(), candidate);
            && HistoryOk(c, h') && Extends(h, h', i) && NodeOk(c, ttl, h', i, n.(raft := r))
            && (i, r.Term()) in h'.votes && h'.votes[(i, r.Term())].candidate == candidate
  {
    hide HistoryOk, NodeOk, Extends, KeepsOk, Grounded, AtLeastAsGood, VoteHonours, RealVotes;
    var t := r.Term();
    var h1 := h.(seen := h.seen[i := t]);
    SeenRaised(c, h, i, t);
    if t !in h.reigns {
      Honours(h.reigns, h.acks, i, n.raft.Term(), t, h.full[i]);
    }
    VoteHistory(c, h1, i, t, candidate);
    VotesAreReal(c, h1);
    VotedNode(c, ttl, h1, i, n.(raft := r), candidate);
    ExtendsTwice(h, h1, WithVote(h1, i, t, candidate), i);
  }

  /** First vote in the current term: only the record changes. */
  lemma FirstVote(c: Configuration, ttl: int, h: History, i: int, n: Node, r: Raft)
    requires NodeOk(c, ttl, h, i, n) && r == n.raft.(persistent := r.persistent, disk := r.disk)
             && r.Term() == n.raft.Term()
    requires BallotOk(h.votes, h.bids, i, r.persistent, r.disk) && TermPolled(h.polls, r.disk.term)
    ensures NodeOk(c, ttl, h, i, n.(raft := r))
  {
    hide LogOk, BallotOk, KeepsOk, CandidateOk, LeaderOk, RoundsOk, CommitOk, MachineOk, ClientsOk;
  }

  /** HandleRequestVote up to the record it keeps; the grant itself is added by GrantOk. */
  lemma VoteRecord(c: Configuration, ttl: int, h: History, i: int, n: Node, req: VoteRequest, lastIndex: int,
                   lastTerm: int, sticky: bool, io: Disk)
    requires HistoryOk(c, h) && NodeOk(c, ttl, h, i, n) && req.term in h.polls
    ensures var (r, resp) := n.raft.HandleRequestVote(req, lastIndex, lastTerm, sticky, io);
            && i in h.seen && h.seen[i] == n.raft.Term() <= r.Term() && resp.term == r.Term()
            && TermPolled(h.polls, r.Term())
            && NodeOk(c, ttl, h.(seen := h.seen[i := r.Term()]), i, n.(raft := r))
            && (resp.granted ==> r.persistent == Persistent(req.term, req.candidateID)
                                 && UpToDate(req.lastLogTerm, req.lastLogIndex, lastTerm, lastIndex))
  {
    hide HistoryOk, NodeOk, BallotOk, RealVotes;
    BallotFacts(c, ttl, h, i, n);
    SameSeen(h, i);
    VotesAreReal(c, h);
    var (r, resp) := n.raft.HandleRequestVote(req, lastIndex, lastTerm, sticky, io);
    if req.term >= n.raft.Term() && !(n.raft.leaderID != 0 && sticky) {
      var stepsUp := req.term > n.raft.Term();
      var base := if stepsUp then Persistent(req.term, NOBODY) else n.raft.persistent;
      var grant := (base.votedFor == NOBODY || base.votedFor == req.candidateID)
                   && UpToDate(req.lastLogTerm, req.lastLogIndex, lastTerm, lastIndex);
      var next := if grant then base.(votedFor := req.candidateID) else base;
      SavedBallot(h.votes, h.bids, i, n.raft, next, io);
      var (s, ok) := n.raft.Save(next, io);
      if !ok {
        FailedSave(c, ttl, h, i, n, s);
      } else if stepsUp {
        FollowerOk(c, ttl, h, i, n, r);
      } else {
        FirstVote(c, ttl, h, i, n, r);
      }
    }
  }

  lemma VoteReqStepOk(c: Configuration, ttl: int, h: History, i: int, n: Node, m: Msg, sticky: bool, io: Disk)
    requires HistoryOk(c, h) && NodeOk(c, ttl, h, i, n) && m.VoteReq? && MsgOk(ttl, h, m)
    ensures i in h.full && StepOk(c, ttl, h, i, OnVoteReq(h, i, n, m, sticky, io))
  {
    hide HistoryOk, NodeOk, Extends, KeepsOk, Grounded, AtLeastAsGood, Raft.HandleRequestVote, LogState.LastIndex,
         LogState.LastTerm, UpToDate;
    VoteReqFacts(c, ttl, h, i, n, m);
    VoteRecord(c, ttl, h, i, n, m.vote, n.log.LastIndex(), n.log.LastTerm(), sticky, io);
    var (r, resp) := n.raft.HandleRequestVote(m.vote, n.log.LastIndex(), n.log.LastTerm(), sticky, io);
    SeenRaised(c, h, i, r.Term());
    if resp.granted {
      GrantOk(c, ttl, h, i, n, r, m.vote.candidateID);
    }
  }

  // ---- Vote replies ----

  lemma VoteCounted(c: Configuration, ttl: int, h: History, i: int, n: Node, from: int)
    requires NodeOk(c, ttl, h, i, n) && n.raft.role == Candidate
    requires (from, n.raft.Term()) in h.votes && h.votes[(from, n.raft.Term())].candidate == i
    ensures NodeOk(c, ttl, h, i, n.(raft := n.raft.(votesFrom := n.raft.votesFrom + {from})))
  {
    hide LogOk, BallotOk, KeepsOk, CommitOk, MachineOk, ClientsOk, PollingOk;
  }

  lemma VoteRespOk(c: Configuration, ttl: int, h: History, i: int, n: Node, m: Msg, io: Disk, noop: Option<Command>)
    requires HistoryOk(c, h) && NodeOk(c, ttl, h, i, n) && m.VoteResp? && m.to == i && MsgOk(ttl, h, m)
    ensures i in h.full && StepOk(c, ttl, h, i, OnVoteResp(h, i, n, m, io, noop))
  {
    hide HistoryOk, NodeOk, Extends, Configuration.HasQuorum, Lead;
    MemberFacts(c, ttl, h, i, n);
    ExtendsSelf(h, i);
    if n.raft.Term() != m.election || n.raft.role != Candidate {
    } else if m.term > n.raft.Term() {
      StepsDown(c, ttl, h, i, n, m.term, 0, io, n.engine);
    } else if m.granted {
      VoteCounted(c, ttl, h, i, n, m.from);
      var r := n.raft.(votesFrom := n.raft.votesFrom + {m.from});
      if c.HasQuorum(r.votesFrom) {
        LeadOk(c, ttl, h, i, n.(raft := r), noop);
      }
    }
  }
}
