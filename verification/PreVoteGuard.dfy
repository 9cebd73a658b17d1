/** Pre-vote guards the term (section 9.6 of Ongaro's dissertation): nobody campaigns before a
    quorum, the candidate included, has answered yes to its own poll for that very term. */
module PreVoteGuard {
  import opened Membership
  import opened Store
  import opened RaftLog
  import opened Consensus
  import opened Ledger
  import opened Cluster
  import opened Invariant
  import opened Elections
  import opened Ballots
  import opened Runs

  /** Everybody in the quorum but the candidate has sent it a yes for its poll for term t. */
  predicate YesSent(net: set<Msg>, candidate: int, t: int, quorum: set<int>) {
    forall v :: v in quorum && v != candidate
        ==> exists m :: m in net && m.PreVoteResp? && m.granted && m.from == v && m.to == candidate && m.poll == t
  }

  ghost predicate GrantsSent(net: set<Msg>, grants: set<(int, int, int)>) {
    forall v, x, t :: (v, x, t) in grants ==>
      exists m :: m in net && m.PreVoteResp? && m.granted && m.from == v && m.to == x && m.poll == t
  }

  /** Every campaign rests on a poll of its own. */
  ghost predicate BidsPolled(c: Configuration, grants: set<(int, int, int)>, bids: Bids) {
    forall x, t :: (x, t) in bids ==> exists q: set<int> :: c.HasQuorum(q) && SaidYes(grants, x, t, q)
  }

  // ---- Which steps grant or campaign ----

  predicate Quiet(h: History, e: Effect) {
    e.h.grants == h.grants && e.h.bids == h.bids
  }

  lemma LeadIsQuiet(h: History, i: int, n: Node, noop: Option<Command>)
    requires i in h.full
    ensures Quiet(h, Lead(h, i, n, noop))
  {
  }

  lemma VotesAreQuiet(h: History, i: int, n: Node, m: Msg, sticky: bool, io: Disk, noop: Option<Command>)
    requires i in h.full
    ensures m.VoteReq? ==> Quiet(h, OnVoteReq(h, i, n, m, sticky, io))
    ensures m.VoteResp? ==> Quiet(h, OnVoteResp(h, i, n, m, io, noop))
  {
    hide Raft.HandleRequestVote, Raft.BecomeFollower, Raft.RecordVote, Lead, LogState.LastIndex, LogState.LastTerm;
    if m.VoteReq? {
      assert Quiet(h, OnVoteReq(h, i, n, m, sticky, io));
    } else if m.VoteResp? {
      if n.raft.Term() != m.election || n.raft.role != Candidate {
        assert Quiet(h, OnVoteResp(h, i, n, m, io, noop));
      } else if m.term > n.raft.Term() {
        assert Quiet(h, OnVoteResp(h, i, n, m, io, noop));
      } else {
        LeadIsQuiet(h, i, n.(raft := n.raft.RecordVote(m.from, m.election).0), noop);
        assert Quiet(h, OnVoteResp(h, i, n, m, io, noop));
      }
    }
  }

  lemma RequestsAreQuiet(h: History, i: int, n: Node, m: Msg, io: Disk, writes: nat, install: Install)
    requires i in h.full
    ensures m.AppendReq? ==> Quiet(h, OnAppendReq(h, i, n, m, io, writes))
    ensures m.SnapReq? ==> Quiet(h, OnSnapReq(h, i, n, m, io, install))
  {
    hide Raft.HandleAppendEntries, HandleInstallSnapshot, Raft.Accept, FullAfterAppend, Raise, Stored, LogState.Retains;
  }

  lemma StepDownToIsQuiet(h: History, i: int, n: Node, term: int, io: Disk)
    ensures Quiet(h, StepDownTo(h, i, n, term, io))
  {
    hide Raft.BecomeFollower;
  }

  lemma AppendRepliesAreQuiet(h: History, i: int, n: Node, m: Msg, io: Disk, reported: bool)
    requires m.AppendResp?
    ensures Quiet(h, OnAppendResp(h, i, n, m, io, reported))
  {
    hide StepDownTo, Raft.UpdatePeerProgress, Raft.BacktrackNextIndex, Heard, Configuration.Peers;
    StepDownToIsQuiet(h, i, n, m.appended.term, io);
  }

  lemma SnapRepliesAreQuiet(h: History, i: int, n: Node, m: Msg, io: Disk, reported: bool)
    requires m.SnapResp?
    ensures Quiet(h, OnSnapResp(h, i, n, m, io, reported))
  {
    hide StepDownTo, Raft.UpdatePeerProgress, Heard, Configuration.Peers;
    StepDownToIsQuiet(h, i, n, m.installed.term, io);
  }

  lemma MostDeliveriesAreQuiet(h: History, i: int, n: Node, s: Step)
    requires s.Deliver? && i in h.full && !s.msg.PreVoteReq? && !s.msg.PreVoteResp?
    ensures Quiet(h, Receive(h, i, n, s))
  {
    hide Quiet, OnPreVoteReq, OnPreVoteResp, OnVoteReq, OnVoteResp, OnAppendReq, OnAppendResp, OnSnapReq, OnSnapResp;
    VotesAreQuiet(h, i, n, s.msg, s.sticky, s.io, s.noop);
    RequestsAreQuiet(h, i, n, s.msg, s.io, s.writes, s.install);
    if s.msg.AppendResp? {
      AppendRepliesAreQuiet(h, i, n, s.msg, s.io, s.reported);
    } else if s.msg.SnapResp? {
      SnapRepliesAreQuiet(h, i, n, s.msg, s.io, s.reported);
    }
  }

  lemma ProposingIsQuiet(h: History, i: int, n: Node, cmd: Command, logged: bool)
    requires i in h.full
    ensures Quiet(h, Propose(h, i, n, cmd, logged))
  {
    hide LogState.AppendLeader;
    if n.raft.role == Leader && logged && n.log.Aligned() && n.raft.Term() in h.reigns {
      assert Quiet(h, Propose(h, i, n, cmd, logged));
    }
  }

  lemma SendingIsQuiet(h: History, i: int, n: Node, peer: int)
    requires i in h.full
    ensures Quiet(h, SendAppend(h, i, n, peer)) && Quiet(h, SendSnapshot(h, i, n, peer))
  {
    hide BuildAppend, Configuration.Peers, Raft.NextIndexFor, ClaimRound;
    assert h.grants == ClaimRound(h, n).grants && h.bids == ClaimRound(h, n).bids by {
      RoundsAreQuiet(h, n);
    }
  }

  lemma RoundsAreQuiet(h: History, n: Node)
    ensures ClaimRound(h, n).grants == h.grants && ClaimRound(h, n).bids == h.bids
  {
  }

  lemma TickIsQuiet(h: History, i: int, n: Node)
    requires n.raft.config.voters != map[]
    ensures Quiet(h, TickLeader(h, i, n))
  {
    hide Raft.AdvanceCommitIndex, Holding, Raise, Answered, StillWaiting, LogState.LastIndex, Configuration.All;
    if n.raft.role != Leader {
      assert Quiet(h, TickLeader(h, i, n));
    } else if n.raft.AdvanceCommitIndex(n.log, n.raft.Term()).commitIndex == n.raft.commitIndex {
      assert Quiet(h, TickLeader(h, i, n));
    }
  }

  lemma ApplyingIsQuiet(ttl: int, h: History, n: Node)
    ensures Quiet(h, ApplyOne(h, ttl, n)) && Quiet(h, Compact(h, n))
  {
    hide Apply, LogState.TruncateBefore, LogState.GetEntry, LogState.TermAt;
  }

  lemma ReadingIsQuiet(h: History, i: int, n: Node, await: bool, read: Read)
    ensures Quiet(h, AdmitRead(h, i, n, await)) && Quiet(h, ReleaseRead(h, i, n, read))
  {
    hide ReadSatisfied, Confirming;
  }

  lemma StoppingIsQuiet(h: History, i: int, n: Node)
    ensures Quiet(h, StepDown(h, n)) && Quiet(h, Restart(h, i, n))
  {
    hide Restarted, Raft.BecomeFollower;
  }

  lemma MostStepsAreQuiet(ttl: int, h: History, i: int, n: Node, s: Step)
    requires i in h.full && n.raft.config.voters != map[] && !s.Timeout? && !s.Deliver?
    ensures Quiet(h, Act(ttl, h, i, n, s))
  {
    hide Propose, SendAppend, SendSnapshot, TickLeader, ApplyOne, Compact, AdmitRead, ReleaseRead, StepDown, Restart;
    match s
    case ClientWrite(_, cmd, logged) => ProposingIsQuiet(h, i, n, cmd, logged);
    case SendEntries(_, peer) => SendingIsQuiet(h, i, n, peer);
    case ShipSnapshot(_, peer) => SendingIsQuiet(h, i, n, peer);
    case LeaderTick(_) => TickIsQuiet(h, i, n);
    case ApplyNext(_) => ApplyingIsQuiet(ttl, h, n);
    case TakeSnapshot(_) => ApplyingIsQuiet(ttl, h, n);
    case ReadArrives(_, await) => ReadingIsQuiet(h, i, n, await, Read(0, 0, 0, 0, false, false, map[], {}));
    case ReadFires(_, read) => ReadingIsQuiet(h, i, n, false, read);
    case ClientsGiveUp(_, _, _) =>
    case QuorumLost(_) => StoppingIsQuiet(h, i, n);
    case Crash(_) => StoppingIsQuiet(h, i, n);
  }

  lemma CampaignBids(h: History, i: int, n: Node, io: Disk)
    requires i in h.full
    ensures var e := Campaign(h, i, n, io);
            e.h.grants == h.grants && (forall k :: k in e.h.bids ==> k in h.bids || k == (i, n.raft.Term() + 1))
  {
    hide AskVotes, Raft.BecomeCandidate, WithPoll;
    PollsAreQuiet(h, i, n);
    if n.raft.BecomeCandidate(io).1 {
      assert Campaign(h, i, n, io).h == WithBid(WithPoll(h, i, n), i, n.raft.Term() + 1);
    }
  }

  lemma PollsAreQuiet(h: History, i: int, n: Node)
    ensures WithPoll(h, i, n).grants == h.grants && WithPoll(h, i, n).bids == h.bids && WithPoll(h, i, n).full == h.full
  {
  }

  // ---- Preservation ----

  lemma PolledGrows(c: Configuration, grants: set<(int, int, int)>, grants': set<(int, int, int)>, bids: Bids)
    requires BidsPolled(c, grants, bids) && grants <= grants'
    ensures BidsPolled(c, grants', bids)
  {
    hide Configuration.HasQuorum;
    forall x, t | (x, t) in bids
      ensures exists q: set<int> :: c.HasQuorum(q) && SaidYes(grants', x, t, q)
    {
      var q: set<int> :| c.HasQuorum(q) && SaidYes(grants, x, t, q);
      assert SaidYes(grants', x, t, q);
    }
  }

  lemma CampaignPolled(c: Configuration, h: History, i: int, n: Node, io: Disk)
    requires i in h.full && Carried(c, h, i, n) && BidsPolled(c, h.grants, h.bids)
    ensures BidsPolled(c, Campaign(h, i, n, io).h.grants, Campaign(h, i, n, io).h.bids)
  {
    hide Configuration.HasQuorum, Campaign;
    CampaignBids(h, i, n, io);
    assert SaidYes(h.grants, i, n.raft.Term() + 1, n.engine.preVotes);
  }

  lemma TimeoutPolled(c: Configuration, ttl: int, h: History, i: int, n: Node, io: Disk, noop: Option<Command>)
    requires HistoryOk(c, h) && NodeOk(c, ttl, h, i, n) && i in h.full && BidsPolled(c, h.grants, h.bids)
    ensures var e := StartPreVote(h, i, n, io, noop); e.h.grants == h.grants && BidsPolled(c, e.h.grants, e.h.bids)
  {
    hide HistoryOk, NodeOk, BidsPolled, Campaign, Lead, Configuration.Peers, Configuration.HasQuorum, AskPreVotes,
         LogState.LastIndex, LogState.LastTerm;
    MemberFacts(c, ttl, h, i, n);
    if n.raft.role == Leader {
    } else if n.raft.config.Peers(i) == map[] {
      AloneIsQuorum(c, i);
      var n1 := n.(engine := n.engine.(preVotes := {i}));
      CampaignPolled(c, h, i, n1, io);
      CampaignBids(h, i, n1, io);
      var e := Campaign(h, i, n1, io);
      LeadIsQuiet(e.h, i, e.node, noop);
    }
  }

  lemma ReplyCarries(c: Configuration, ttl: int, h: History, i: int, n: Node, m: Msg)
    requires HistoryOk(c, h) && NodeOk(c, ttl, h, i, n) && m.PreVoteResp? && m.to == i && MsgOk(ttl, h, m)
    requires m.poll == n.engine.preVoteTerm && n.raft.Term() < m.poll && m.granted
             && c.HasQuorum(n.engine.preVotes + {m.from})
    ensures Carried(c, h, i, n.(engine := n.engine.(preVoteTerm := 0, preVotes := n.engine.preVotes + {m.from})))
  {
    hide HistoryOk, NodeOk, Configuration.HasQuorum;
    MemberFacts(c, ttl, h, i, n);
  }

  /** A poll reply is quiet, or it completes the poll and starts the campaign. */
  lemma PollReplyIs(h: History, i: int, n: Node, m: Msg, io: Disk)
    requires m.PreVoteResp? && i in h.full
    ensures var votes := n.engine.preVotes + {m.from};
            var e := OnPreVoteResp(h, i, n, m, io);
            || Quiet(h, e)
            || (&& m.poll == n.engine.preVoteTerm && n.raft.Term() < m.poll && m.granted
                && n.raft.config.HasQuorum(votes)
                && e == Campaign(h, i, n.(engine := n.engine.(preVoteTerm := 0, preVotes := votes)), io))
  {
    hide Campaign, Raft.BecomeFollower, Configuration.HasQuorum;
    var e := OnPreVoteResp(h, i, n, m, io);
    if m.poll != n.engine.preVoteTerm || n.raft.role == Leader || n.raft.Term() >= m.poll {
      assert Quiet(h, e);
    } else if m.term > n.raft.Term() {
      assert Quiet(h, e);
    } else if !m.granted {
      assert Quiet(h, e);
    }
  }

  lemma PollReplyPolled(c: Configuration, ttl: int, h: History, i: int, n: Node, m: Msg, io: Disk)
    requires HistoryOk(c, h) && NodeOk(c, ttl, h, i, n) && i in h.full && BidsPolled(c, h.grants, h.bids)
    requires m.PreVoteResp? && m.to == i && MsgOk(ttl, h, m)
    ensures var e := OnPreVoteResp(h, i, n, m, io); e.h.grants == h.grants && BidsPolled(c, e.h.grants, e.h.bids)
  {
    hide HistoryOk, NodeOk, MsgOk, BidsPolled, Carried, Campaign, OnPreVoteResp, Configuration.HasQuorum;
    MemberFacts(c, ttl, h, i, n);
    PollReplyIs(h, i, n, m, io);
    if !Quiet(h, OnPreVoteResp(h, i, n, m, io)) {
      var n1 := n.(engine := n.engine.(preVoteTerm := 0, preVotes := n.engine.preVotes + {m.from}));
      ReplyCarries(c, ttl, h, i, n, m);
      CampaignPolled(c, h, i, n1, io);
      CampaignBids(h, i, n1, io);
    }
  }

  ghost predicate Guarded(s: State) {
    BidsPolled(s.config, s.h.grants, s.h.bids) && GrantsSent(s.net, s.h.grants)
  }

  lemma ActGuarded(c: Configuration, ttl: int, h: History, i: int, n: Node, s: Step, net: set<Msg>)
    requires HistoryOk(c, h) && NodeOk(c, ttl, h, i, n) && i in h.full && n.raft.config.voters != map[]
    requires s.Deliver? ==> MsgOk(ttl, h, s.msg) && s.msg.to == i
    requires BidsPolled(c, h.grants, h.bids) && GrantsSent(net, h.grants)
    ensures var e := Act(ttl, h, i, n, s); BidsPolled(c, e.h.grants, e.h.bids) && GrantsSent(net + e.out, e.h.grants)
  {
    hide HistoryOk, NodeOk, MsgOk, BidsPolled, GrantsSent, StartPreVote, OnPreVoteReq, OnPreVoteResp, Act, Receive;
    var e := Act(ttl, h, i, n, s);
    ActIs(ttl, h, i, n, s);
    SentMore(net, e.out, h.grants);
    if s.Timeout? {
      TimeoutPolled(c, ttl, h, i, n, s.io, s.noop);
    } else if s.Deliver? && s.msg.PreVoteResp? {
      PollReplyPolled(c, ttl, h, i, n, s.msg, s.io);
    } else if s.Deliver? && s.msg.PreVoteReq? {
      PollAnswered(h, i, n, s.msg, s.sticky, net);
      PolledGrows(c, h.grants, e.h.grants, h.bids);
    } else if s.Deliver? {
      MostDeliveriesAreQuiet(h, i, n, s);
    } else {
      MostStepsAreQuiet(ttl, h, i, n, s);
    }
  }

  lemma ActIs(ttl: int, h: History, i: int, n: Node, s: Step)
    requires i in h.full && n.raft.config.voters != map[]
    ensures s.Timeout? ==> Act(ttl, h, i, n, s) == StartPreVote(h, i, n, s.io, s.noop)
    ensures s.Deliver? ==> Act(ttl, h, i, n, s) == Receive(h, i, n, s)
    ensures s.Deliver? && s.msg.PreVoteReq? ==> Receive(h, i, n, s) == OnPreVoteReq(h, i, n, s.msg, s.sticky)
    ensures s.Deliver? && s.msg.PreVoteResp? ==> Receive(h, i, n, s) == OnPreVoteResp(h, i, n, s.msg, s.io)
  {
    hide StartPreVote, OnPreVoteReq, OnPreVoteResp, OnVoteReq, OnVoteResp, OnAppendReq, OnAppendResp, OnSnapReq,
         OnSnapResp;
  }

  lemma SentMore(net: set<Msg>, out: set<Msg>, grants: set<(int, int, int)>)
    requires GrantsSent(net, grants)
    ensures GrantsSent(net + out, grants)
  {
    forall v, x, t | (v, x, t) in grants
      ensures exists m :: m in net + out && m.PreVoteResp? && m.granted && m.from == v && m.to == x && m.poll == t
    {
      var m :| m in net && m.PreVoteResp? && m.granted && m.from == v && m.to == x && m.poll == t;
      assert m in net + out;
    }
  }

  lemma PollAnswered(h: History, i: int, n: Node, m: Msg, sticky: bool, net: set<Msg>)
    requires m.PreVoteReq? && GrantsSent(net, h.grants)
    ensures var e := OnPreVoteReq(h, i, n, m, sticky);
            e.h.bids == h.bids && h.grants <= e.h.grants && GrantsSent(net + e.out, e.h.grants)
  {
    hide Raft.HandlePreVote, LogState.LastIndex, LogState.LastTerm, GrantsSent;
    var e := OnPreVoteReq(h, i, n, m, sticky);
    SentMore(net, e.out, h.grants);
    if n.raft.HandlePreVote(m.vote, n.log.LastIndex(), n.log.LastTerm(), sticky) {
      OneMoreGrant(net + e.out, h.grants, PreVoteResp(m.vote.candidateID, i, m.vote.term, n.raft.Term(), true));
    }
  }

  lemma OneMoreGrant(net: set<Msg>, grants: set<(int, int, int)>, answer: Msg)
    requires GrantsSent(net, grants) && answer in net && answer.PreVoteResp? && answer.granted
    ensures GrantsSent(net, grants + {(answer.from, answer.to, answer.poll)})
  {
  }

  lemma {:induction false} RunGuarded(c: Configuration, ttl: int, run: Run, a: nat)
    requires run.Of(c, ttl) && a < |run.states|
    ensures Guarded(run.states[a])
    decreases a
  {
    hide HistoryOk, NodeOk, MsgOk, BidsPolled, GrantsSent, Act, Start, Bootable;
    if a == 0 {
      StartGuarded(c, ttl);
    } else {
      var s, step := run.states[a - 1], run.steps[a - 1];
      RunGuarded(c, ttl, run, a - 1);
      RunOk(c, ttl, run, a - 1);
      assert run.Linked(a - 1);
      if Possible(s, step) {
        ActGuarded(c, ttl, s.h, step.who, s.nodes[step.who], step, s.net);
      }
    }
  }

  lemma StartGuarded(c: Configuration, ttl: int)
    requires Bootable(c)
    ensures Guarded(Start(c, ttl))
  {
  }

  /** Whoever is a candidate or leader in a term got there on its own poll: a quorum, itself
      included, each other member of which sent it a yes for that term. */
  lemma CampaignersWerePolled(c: Configuration, ttl: int, run: Run, a: nat, i: int) returns (quorum: set<int>)
    requires run.Of(c, ttl) && a < |run.states| && i in run.states[a].nodes
             && run.states[a].nodes[i].raft.role != Follower
    ensures var s := run.states[a];
            c.HasQuorum(quorum) && YesSent(s.net, i, s.nodes[i].raft.Term(), quorum)
  {
    hide HistoryOk, NodeOk, MsgOk, GrantsSent, Run.Of, Configuration.HasQuorum, YesSent;
    RunGuarded(c, ttl, run, a);
    RunOk(c, ttl, run, a);
    var s := run.states[a];
    var t := s.nodes[i].raft.Term();
    CampaignerBid(c, ttl, s.h, i, s.nodes[i]);
    quorum :| c.HasQuorum(quorum) && SaidYes(s.h.grants, i, t, quorum);
    AllSent(s.net, s.h.grants, i, t, quorum);
  }

  lemma CampaignerBid(c: Configuration, ttl: int, h: History, i: int, n: Node)
    requires HistoryOk(c, h) && NodeOk(c, ttl, h, i, n) && n.raft.role != Follower
    ensures (i, n.raft.Term()) in h.bids
  {
    if n.raft.role == Leader {
      assert ReignOk(c, h.votes, h.bids, h.reigns, n.raft.Term());
    }
  }

  lemma AllSent(net: set<Msg>, grants: set<(int, int, int)>, i: int, t: int, quorum: set<int>)
    requires GrantsSent(net, grants) && SaidYes(grants, i, t, quorum)
    ensures YesSent(net, i, t, quorum)
  {
  }
}
