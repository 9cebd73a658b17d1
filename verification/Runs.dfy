/** Every step of every member keeps the invariant, so every run does. */
module Runs {
  import opened Membership
  import opened Store
  import opened RaftLog
  import opened Ledger
  import opened Cluster
  import opened Invariant
  import opened Elections
  import opened Ballots
  import opened Replication
  import opened Deliveries
  import opened Committing
  import opened Reads

  ghost predicate Inv(s: State) {
    && HistoryOk(s.config, s.h)
    && s.nodes.Keys == s.h.full.Keys == s.config.All().Keys
    && (forall i :: i in s.nodes ==> NodeOk(s.config, s.ttl, s.h, i, s.nodes[i]))
    && (forall m :: m in s.net ==> MsgOk(s.ttl, s.h, m))
  }

  lemma BootedLog(c: Configuration, ttl: int, h: History, i: int)
    ensures LogOk(h.reigns, [], Booted(i, c).log, 0) && Booted(i, c).log.lastIncludedIndex == 0
    ensures MachineOk(ttl, [], 0, 0, FRESH, None)
  {
  }

  lemma BootedOk(c: Configuration, ttl: int, h: History, i: int)
    requires i in c.All() && i > 0 && i in h.full && h.full[i] == [] && i in h.seen && h.seen[i] == 0
    requires h.votes == map[] && h.bids == map[] && h.acks == map[]
    ensures NodeOk(c, ttl, h, i, Booted(i, c))
  {
    hide LogOk, MachineOk, CandidateOk, LeaderOk, RoundsOk, Configuration.All, Configuration.Peers, Recovered;
    BootedLog(c, ttl, h, i);
  }

  lemma EmptyHistoryOk(c: Configuration, h: History)
    requires c.voters != map[] && h.votes == map[] && h.bids == map[] && h.reigns == map[] && h.acks == map[]
             && h.commits == map[]
    requires h.admitted == {} && h.released == map[] && h.written == {} && h.polls == map[]
    ensures HistoryOk(c, h)
  {
  }

  lemma StartOk(c: Configuration, ttl: int)
    requires Bootable(c)
    ensures Inv(Start(c, ttl))
  {
    hide HistoryOk, NodeOk, Configuration.All, Booted;
    var s := Start(c, ttl);
    EmptyHistoryOk(c, s.h);
    forall i | i in s.nodes
      ensures NodeOk(c, ttl, s.h, i, s.nodes[i])
    {
      BootedOk(c, ttl, s.h, i);
    }
  }

  lemma ReceiveOk(c: Configuration, ttl: int, h: History, i: int, n: Node, s: Step)
    requires HistoryOk(c, h) && NodeOk(c, ttl, h, i, n) && s.Deliver? && MsgOk(ttl, h, s.msg) && s.msg.to == i
             && i in h.full
    ensures StepOk(c, ttl, h, i, Receive(h, i, n, s))
  {
    hide HistoryOk, NodeOk, MsgOk, StepOk, OnPreVoteReq, OnPreVoteResp, OnVoteReq, OnVoteResp, OnAppendReq,
         OnAppendResp, OnSnapReq, OnSnapResp;
    match s.msg
    case PreVoteReq(_, _) => PreVoteReqOk(c, ttl, h, i, n, s.msg, s.sticky);
    case PreVoteResp(_, _, _, _, _) => PreVoteRespOk(c, ttl, h, i, n, s.msg, s.io);
    case VoteReq(_, _) => VoteReqStepOk(c, ttl, h, i, n, s.msg, s.sticky, s.io);
    case VoteResp(_, _, _, _, _) => VoteRespOk(c, ttl, h, i, n, s.msg, s.io, s.noop);
    case AppendReq(_, _, _) => AppendReqStepOk(c, ttl, h, i, n, s.msg, s.io, s.writes);
    case AppendResp(_, _, _, _, _) => AppendRespOk(c, ttl, h, i, n, s.msg, s.io, s.reported);
    case SnapReq(_, _, _) => SnapReqStepOk(c, ttl, h, i, n, s.msg, s.io, s.install);
    case SnapResp(_, _, _, _, _, _) => SnapRespOk(c, ttl, h, i, n, s.msg, s.io, s.reported);
  }

  lemma ActOk(c: Configuration, ttl: int, h: History, i: int, n: Node, s: Step)
    requires HistoryOk(c, h) && NodeOk(c, ttl, h, i, n) && i in h.full && n.raft.config.voters != map[]
    requires s.Deliver? ==> MsgOk(ttl, h, s.msg) && s.msg.to == i
    ensures StepOk(c, ttl, h, i, Act(ttl, h, i, n, s))
  {
    hide HistoryOk, NodeOk, MsgOk, Extends, Receive, StartPreVote, Propose, SendAppend, SendSnapshot, TickLeader,
         ApplyOne, Compact,
         AdmitRead, ReleaseRead, DropClients, StepDown, Restart;
    match s
    case Timeout(_, io, noop) => StartPreVoteOk(c, ttl, h, i, n, io, noop);
    case Deliver(_, _, _, _, _, _, _, _) => ReceiveOk(c, ttl, h, i, n, s);
    case ClientWrite(_, cmd, logged) => ProposeOk(c, ttl, h, i, n, cmd, logged);
    case SendEntries(_, peer) => SendAppendOk(c, ttl, h, i, n, peer);
    case ShipSnapshot(_, peer) => SendSnapshotOk(c, ttl, h, i, n, peer);
    case LeaderTick(_) => TickLeaderOk(c, ttl, h, i, n);
    case ApplyNext(_) => ApplyOneOk(c, ttl, h, i, n);
    case TakeSnapshot(_) => CompactOk(c, ttl, h, i, n);
    case ReadArrives(_, await) => AdmitReadOk(c, ttl, h, i, n, await);
    case ReadFires(_, read) => ReleaseReadOk(c, ttl, h, i, n, read);
    case ClientsGiveUp(_, waiters, gone) => DropClientsOk(c, ttl, h, i, n, waiters, gone);
    case QuorumLost(_) =>
      StepDownOk(c, ttl, h, i, n);
      ExtendsSelf(h, i);
    case Crash(_) => RestartOk(c, ttl, h, i, n);
  }

  // ---- Growth along a run ----

  /** Nothing the run has promised is ever taken back. */
  ghost predicate Grows(a: History, b: History) {
    && b.seen.Keys == a.seen.Keys && (forall j :: j in a.seen ==> a.seen[j] <= b.seen[j])
    && (forall k :: k in a.votes ==> k in b.votes && b.votes[k] == a.votes[k])
    && ReignsGrow(a.reigns, b.reigns)
    && a.commits.Keys <= b.commits.Keys
    && a.admitted <= b.admitted && a.written <= b.written && a.grants <= b.grants
    && a.released.Keys <= b.released.Keys && a.polls.Keys <= b.polls.Keys
  }

  lemma ExtendsGrows(a: History, b: History, i: int)
    requires Extends(a, b, i)
    ensures Grows(a, b)
  {
    assert forall t :: t in a.polls.Keys ==> t in b.polls.Keys;
    assert forall r :: r in a.released.Keys ==> r in b.released.Keys;
    assert forall k :: k in a.commits.Keys ==> k in b.commits.Keys;
  }

  lemma GrowsTwice(a: History, b: History, d: History)
    requires Grows(a, b) && Grows(b, d)
    ensures Grows(a, d)
  {
  }

  lemma EveryoneOk(s: State, i: int, e: Effect)
    requires Inv(s) && i in s.nodes && StepOk(s.config, s.ttl, s.h, i, e)
    ensures Inv(s.(nodes := s.nodes[i := e.node], net := s.net + e.out, h := e.h))
  {
    hide HistoryOk, NodeOk, MsgOk, Extends, Configuration.All;
    SameMembers(s.h, e.h, i);
    var s' := s.(nodes := s.nodes[i := e.node], net := s.net + e.out, h := e.h);
    forall j | j in s'.nodes
      ensures NodeOk(s.config, s.ttl, e.h, j, s'.nodes[j])
    {
      if j != i {
        NodeStays(s.config, s.ttl, s.h, e.h, i, j, s.nodes[j]);
      }
    }
    forall m | m in s'.net
      ensures MsgOk(s.ttl, e.h, m)
    {
      if m in s.net {
        MsgStays(s.config, s.ttl, s.h, e.h, i, m);
      }
    }
  }

  lemma NextOk(s: State, step: Step)
    requires Inv(s)
    ensures Inv(Next(s, step)) && Grows(s.h, Next(s, step).h)
    ensures Next(s, step).config == s.config && Next(s, step).ttl == s.ttl && s.net <= Next(s, step).net
  {
    hide HistoryOk, NodeOk, MsgOk, Extends, Act, Grows, Configuration.All;
    ExtendsSelf(s.h, step.who);
    ExtendsGrows(s.h, s.h, step.who);
    if Possible(s, step) {
      var i := step.who;
      var e := Act(s.ttl, s.h, i, s.nodes[i], step);
      ActOk(s.config, s.ttl, s.h, i, s.nodes[i], step);
      ExtendsGrows(s.h, e.h, i);
      hide Inv;
      EveryoneOk(s, i, e);
    }
  }

  lemma SameMembers(a: History, b: History, i: int)
    requires Extends(a, b, i)
    ensures b.full.Keys == a.full.Keys
  {
  }

  lemma StartIs(c: Configuration, ttl: int)
    requires Bootable(c)
    ensures Start(c, ttl).config == c && Start(c, ttl).ttl == ttl
  {
  }

  /** Every state of every run satisfies the invariant. */
  lemma {:induction false} RunOk(c: Configuration, ttl: int, run: Run, a: nat)
    requires run.Of(c, ttl) && a < |run.states|
    ensures Inv(run.states[a]) && run.states[a].config == c && run.states[a].ttl == ttl
    decreases a
  {
    hide Inv, Grows, Start, Next, Bootable;
    if a == 0 {
      StartOk(c, ttl);
      StartIs(c, ttl);
    } else {
      RunOk(c, ttl, run, a - 1);
      assert run.Linked(a - 1);
      NextOk(run.states[a - 1], run.steps[a - 1]);
    }
  }

  /** Two points of one run: both satisfy the invariant and the later history extends the earlier. */
  lemma {:induction false} TwoPoints(c: Configuration, ttl: int, run: Run, a: nat, b: nat)
    requires run.Of(c, ttl) && a <= b < |run.states|
    ensures var s, s' := run.states[a], run.states[b];
            && Inv(s) && Inv(s') && Grows(s.h, s'.h) && s.config == s'.config == c && s.ttl == s'.ttl == ttl
            && s.net <= s'.net
    decreases b
  {
    hide Inv, Start, Next, Bootable;
    RunOk(c, ttl, run, a);
    if a < b {
      TwoPoints(c, ttl, run, a, b - 1);
      assert run.Linked(b - 1);
      NextOk(run.states[b - 1], run.steps[b - 1]);
      hide Grows;
      GrowsTwice(run.states[a].h, run.states[b - 1].h, run.states[b].h);
    }
  }
}
