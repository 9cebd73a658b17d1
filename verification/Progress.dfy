/** The other half of correctness: nothing in the protocol keeps a cluster from working. From every
    reachable state a member whose log is not behind those of a quorum can be elected, given messages
    that arrive and disks that work. */
module Progress {
  import opened Sets
  import opened Membership
  import opened Store
  import opened RaftLog
  import opened Consensus
  import opened Ledger
  import opened Cluster
  import opened Invariant
  import opened Reads
  import opened Runs
  import opened Decisions

  /** The state after these steps. */
  ghost function After(s: State, steps: seq<Step>): State
    decreases |steps|
  {
    if steps == [] then s else After(Next(s, steps[0]), steps[1..])
  }

  lemma {:induction false} AfterBoth(s: State, a: seq<Step>, b: seq<Step>)
    ensures After(s, a + b) == After(After(s, a), b)
    decreases |a|
  {
    if a == [] {
      assert a + b == b;
    } else {
      assert (a + b)[1..] == a[1..] + b;
      AfterBoth(Next(s, a[0]), a[1..], b);
    }
  }

  lemma AfterTwo(s: State, a: Step, b: Step)
    ensures After(s, [a, b]) == Next(Next(s, a), b)
  {
    hide Next;
    assert [a, b][1..] == [b] && [b][1..] == [];
    assert After(Next(s, a), [b]) == After(Next(Next(s, a), b), []);
  }

  /** Every member is there and knows itself and the configuration. */
  predicate Formed(s: State, c: Configuration) {
    && c.voters != map[] && s.nodes.Keys == s.h.full.Keys == c.All().Keys
    && (forall v :: v in s.nodes ==> s.nodes[v].raft.id == v && s.nodes[v].raft.config == c)
  }

  lemma FormedAt(s: State, c: Configuration, v: int)
    requires Formed(s, c)
    ensures v in s.nodes <==> v in c.All()
    ensures v in s.nodes ==> v in s.h.full && s.nodes[v].raft.id == v && s.nodes[v].raft.config == c
  {
  }

  /** A step changes the member that takes it, and adds what it sends to the network. */
  lemma Stepped(s: State, c: Configuration, step: Step)
    requires Formed(s, c) && step.who in s.nodes
    requires step.Deliver? ==> step.msg in s.net && step.msg.to == step.who
    ensures var e := Act(s.ttl, s.h, step.who, s.nodes[step.who], step);
            Next(s, step) == s.(nodes := s.nodes[step.who := e.node], net := s.net + e.out, h := e.h)
  {
    hide Act, Configuration.All;
  }

  /** A message delivered to a disk that works, with no leader heard of lately. */
  function Delivery(m: Msg): Step {
    Deliver(m.to, m, false, Durable, 0, Completes, true, None)
  }

  /** What a member does with a message is all that a delivery changes. */
  lemma Delivered(s: State, c: Configuration, m: Msg)
    requires Formed(s, c) && m in s.net && m.to in s.nodes
    ensures m.to in s.h.full
    ensures var e := Receive(s.h, m.to, s.nodes[m.to], Delivery(m));
            Next(s, Delivery(m)) == s.(nodes := s.nodes[m.to := e.node], net := s.net + e.out, h := e.h)
  {
    Stepped(s, c, Delivery(m));
    hide Receive;
  }

  lemma StillFormed(s: State, c: Configuration, i: int, e: Effect)
    requires Formed(s, c) && i in s.nodes && e.h.full.Keys == s.h.full.Keys
    requires e.node.raft.id == i && e.node.raft.config == c
    ensures var s' := s.(nodes := s.nodes[i := e.node], net := s.net + e.out, h := e.h);
            Formed(s', c) && OthersKept(s, s', i) && s'.nodes[i] == e.node && e.out <= s'.net
  {
    hide Configuration.All;
  }

  // ---- Polling ----

  function RequestOf(n: Node, i: int, t: int): VoteRequest {
    VoteRequest(t, i, n.log.LastIndex(), n.log.LastTerm())
  }

  /** The two logs end such that the one may vote for the other. */
  predicate MayFollow(voter: Node, candidate: Node) {
    || candidate.log.LastTerm() > voter.log.LastTerm()
    || (candidate.log.LastTerm() == voter.log.LastTerm() && candidate.log.LastIndex() >= voter.log.LastIndex())
  }

  /** i has asked everyone about term t. */
  ghost predicate Polling(s: State, c: Configuration, i: int, t: int, yes: set<int>) {
    && Formed(s, c) && i in s.nodes
    && s.nodes[i].raft.role != Leader && s.nodes[i].raft.Term() == t - 1
    && s.nodes[i].engine.preVoteTerm == t && s.nodes[i].engine.preVotes == yes
    && (forall p :: p in c.Peers(i) ==> PreVoteReq(p, RequestOf(s.nodes[i], i, t)) in s.net)
  }

  /** The others as they were. */
  predicate OthersKept(s: State, s': State, i: int) {
    && s'.nodes.Keys == s.nodes.Keys && s'.ttl == s.ttl && s.net <= s'.net
    && (forall v :: v in s.nodes && v != i ==> s'.nodes[v] == s.nodes[v])
  }

  lemma StartsPoll(s: State, c: Configuration, i: int, t: int)
    requires Formed(s, c) && i in s.nodes && s.nodes[i].raft.role != Leader && s.nodes[i].raft.Term() == t - 1
    requires c.Peers(i) != map[]
    ensures var s' := Next(s, Timeout(i, Durable, None));
            Polling(s', c, i, t, {i}) && OthersKept(s, s', i) && s'.nodes[i].log == s.nodes[i].log
  {
    hide Formed, Next, Configuration.All, Configuration.Peers, LogState.LastIndex, LogState.LastTerm;
    FormedAt(s, c, i);
    Stepped(s, c, Timeout(i, Durable, None));
    StillFormed(s, c, i, StartPreVote(s.h, i, s.nodes[i], Durable, None));
  }

  /** v answers the poll, which changes nothing about it. */
  lemma AnswersPoll(s: State, c: Configuration, i: int, t: int, yes: set<int>, v: int)
    requires Polling(s, c, i, t, yes) && v in c.Peers(i)
    ensures var s' := Next(s, Delivery(PreVoteReq(v, RequestOf(s.nodes[i], i, t))));
            var granted := t > s.nodes[v].raft.Term() && MayFollow(s.nodes[v], s.nodes[i]);
            && v in s.nodes && Polling(s', c, i, t, yes) && s'.nodes == s.nodes && OthersKept(s, s', i)
            && PreVoteResp(i, v, t, s.nodes[v].raft.Term(), granted) in s'.net
  {
    var n := s.nodes[i];
    var m := PreVoteReq(v, RequestOf(n, i, t));
    assert v in s.nodes && v != i;
    Stepped(s, c, Delivery(m));
    PollYesExactlyWhen(s.nodes[v].raft, m.vote, s.nodes[v].log.LastIndex(), s.nodes[v].log.LastTerm(), false);
    hide Configuration.All, Configuration.Peers, LogState.LastIndex, LogState.LastTerm, Raft.HandlePreVote;
    assert Act(s.ttl, s.h, v, s.nodes[v], Delivery(m)) == OnPreVoteReq(s.h, v, s.nodes[v], m, false);
    assert s.nodes[v := s.nodes[v]] == s.nodes;
  }

  // ---- Campaigning ----

  /** i has asked everyone for their vote in term t. */
  ghost predicate Campaigning(s: State, c: Configuration, i: int, t: int, votes: set<int>) {
    && Formed(s, c) && i in s.nodes
    && s.nodes[i].raft.role == Candidate && s.nodes[i].raft.Term() == t && s.nodes[i].raft.votesFrom == votes
    && (forall p :: p in c.Peers(i) ==> VoteReq(p, RequestOf(s.nodes[i], i, t)) in s.net)
  }

  /** A yes either completes the poll and starts the campaign, or is counted. */
  lemma HearsYes(s: State, c: Configuration, i: int, t: int, yes: set<int>, v: int, term: int)
    requires Polling(s, c, i, t, yes) && v in c.Peers(i) && term < t
    requires PreVoteResp(i, v, t, term, true) in s.net
    ensures var s' := Next(s, Delivery(PreVoteResp(i, v, t, term, true)));
            && OthersKept(s, s', i) && s'.nodes[i].log == s.nodes[i].log
            && (if c.HasQuorum(yes + {v}) then Campaigning(s', c, i, t, {i}) else Polling(s', c, i, t, yes + {v}))
  {
    hide Configuration.Peers, Configuration.HasQuorum, OnPreVoteResp, Formed, Next, OthersKept, LogState.LastIndex,
         LogState.LastTerm;
    var n, m := s.nodes[i], PreVoteResp(i, v, t, term, true);
    FormedAt(s, c, i);
    Delivered(s, c, m);
    YesCounted(s.h, i, n, m);
    StillFormed(s, c, i, OnPreVoteResp(s.h, i, n, m, Durable));
  }

  lemma YesCounted(h: History, i: int, n: Node, m: Msg)
    requires i in h.full && n.raft.id == i && n.raft.role != Leader && m.PreVoteResp? && m.granted
    requires m.poll == n.engine.preVoteTerm == n.raft.Term() + 1 && m.term <= n.raft.Term()
    ensures var e, yes := OnPreVoteResp(h, i, n, m, Durable), n.engine.preVotes + {m.from};
            && e.h.full == h.full && e.node.log == n.log && e.node.raft.id == i && e.node.raft.config == n.raft.config
            && (if n.raft.config.HasQuorum(yes)
                then && e.node.raft.role == Candidate && e.node.raft.Term() == m.poll && e.node.raft.votesFrom == {i}
                     && forall p :: p in n.raft.config.Peers(i) ==> VoteReq(p, RequestOf(n, i, m.poll)) in e.out
                else e.node == n.(engine := n.engine.(preVotes := yes)))
  {
    hide Configuration.Peers, Configuration.HasQuorum, LogState.LastIndex, LogState.LastTerm;
    assert Persistent(n.raft.Term() + 1, i) != n.raft.persistent;
  }

  /** Word of a later term is adopted. */
  lemma HearsLaterTerm(s: State, c: Configuration, i: int, t: int, yes: set<int>, v: int, term: int, granted: bool)
    requires Polling(s, c, i, t, yes) && term > t - 1
    requires PreVoteResp(i, v, t, term, granted) in s.net
    ensures var s' := Next(s, Delivery(PreVoteResp(i, v, t, term, granted)));
            && Formed(s', c) && OthersKept(s, s', i) && s'.nodes[i].log == s.nodes[i].log
            && s'.nodes[i].raft.role == Follower && s'.nodes[i].raft.Term() == term
  {
    hide Formed, Next, Configuration.All, Configuration.Peers, Configuration.HasQuorum, LogState.LastIndex,
         LogState.LastTerm, Campaign;
    var n, m := s.nodes[i], PreVoteResp(i, v, t, term, granted);
    FormedAt(s, c, i);
    Delivered(s, c, m);
    StillFormed(s, c, i, OnPreVoteResp(s.h, i, n, m, Durable));
  }

  /** v grants its vote. */
  lemma GrantsVote(s: State, c: Configuration, i: int, t: int, votes: set<int>, v: int)
    requires Campaigning(s, c, i, t, votes) && v in c.Peers(i) && v in s.nodes
    requires s.nodes[v].raft.Term() < t && MayFollow(s.nodes[v], s.nodes[i])
    ensures var s' := Next(s, Delivery(VoteReq(v, RequestOf(s.nodes[i], i, t))));
            && Campaigning(s', c, i, t, votes) && OthersKept(s, s', v) && s'.nodes[v].log == s.nodes[v].log
            && VoteResp(i, v, t, t, true) in s'.net && s'.nodes[v].raft.Term() == t
  {
    hide Configuration.Peers, OnVoteReq, Formed, Next, LogState.LastIndex, LogState.LastTerm;
    var n, m := s.nodes[v], VoteReq(v, RequestOf(s.nodes[i], i, t));
    PeersAreOthers(c, i, v);
    FormedAt(s, c, v);
    Delivered(s, c, m);
    VoteGiven(s.h, v, n, m);
    StillFormed(s, c, v, OnVoteReq(s.h, v, n, m, false, Durable));
  }

  lemma VoteGiven(h: History, v: int, n: Node, m: Msg)
    requires v in h.full && n.raft.id == v && m.VoteReq? && n.raft.Term() < m.vote.term
    requires NotBehind(m.vote, n.log.LastIndex(), n.log.LastTerm())
    ensures var e := OnVoteReq(h, v, n, m, false, Durable);
            && e.h.full == h.full && e.node.log == n.log && e.node.raft.id == v && e.node.raft.config == n.raft.config
            && e.out == {VoteResp(m.vote.candidateID, v, m.vote.term, m.vote.term, true)}
            && e.node.raft.Term() == m.vote.term
  {
    hide LogState.LastIndex, LogState.LastTerm, Raft.HandleRequestVote;
    VoteGrantedExactlyWhen(n.raft, m.vote, n.log.LastIndex(), n.log.LastTerm(), false, Durable);
  }

  /** A vote either completes the quorum and makes the candidate leader, or is counted. */
  lemma HearsVote(s: State, c: Configuration, i: int, t: int, votes: set<int>, v: int)
    requires Campaigning(s, c, i, t, votes) && v in c.Peers(i) && VoteResp(i, v, t, t, true) in s.net
    ensures var s' := Next(s, Delivery(VoteResp(i, v, t, t, true)));
            && OthersKept(s, s', i) && s'.nodes[i].log == s.nodes[i].log
            && (if c.HasQuorum(votes + {v}) then Leads(s', c, i, t) else Campaigning(s', c, i, t, votes + {v}))
  {
    hide Configuration.Peers, Configuration.HasQuorum, OnVoteResp, Formed, Next, OthersKept, LogState.LastIndex,
         LogState.LastTerm, Unproven;
    var n, m := s.nodes[i], VoteResp(i, v, t, t, true);
    FormedAt(s, c, i);
    Delivered(s, c, m);
    VoteCounted(s.h, i, n, m);
    StillFormed(s, c, i, OnVoteResp(s.h, i, n, m, Durable, None));
  }

  lemma VoteCounted(h: History, i: int, n: Node, m: Msg)
    requires i in h.full && n.raft.id == i && n.raft.role == Candidate && m.VoteResp? && m.granted
    requires m.election == n.raft.Term() == m.term
    ensures var e, votes := OnVoteResp(h, i, n, m, Durable, None), n.raft.votesFrom + {m.from};
            && e.h.full == h.full && e.node.log == n.log && e.node.raft.id == i && e.node.raft.config == n.raft.config
            && e.node.raft.Term() == n.raft.Term()
            && (if n.raft.config.HasQuorum(votes) then e.node.raft.role == Leader && Unproven(e.node)
                else e.node == n.(raft := n.raft.(votesFrom := votes)))
  {
    hide Configuration.Peers, Configuration.HasQuorum, LogState.LastIndex;
    assert h.full[i := h.full[i]] == h.full;
  }

  /** A leader that has heard from nobody yet: it will offer every peer what comes after its log. */
  ghost predicate Unproven(n: Node) {
    && n.raft.nextIndex.Keys == n.raft.matchIndex.Keys == n.raft.config.Peers(n.raft.id).Keys
    && (forall p :: p in n.raft.nextIndex ==> n.raft.nextIndex[p] == n.log.LastIndex() + 1)
  }

  ghost predicate Leads(s: State, c: Configuration, i: int, t: int) {
    && Formed(s, c) && i in s.nodes && s.nodes[i].raft.role == Leader && s.nodes[i].raft.Term() == t
    && Unproven(s.nodes[i])
  }

  // ---- A whole election ----

  /** Those still to be asked are in earlier terms, with logs not ahead. */
  predicate Willing(s: State, i: int, t: int, voters: set<int>)
    requires i in s.nodes
  {
    forall v :: v in voters ==> v in s.nodes && s.nodes[v].raft.Term() < t && MayFollow(s.nodes[v], s.nodes[i])
  }

  lemma WillingStill(s: State, s': State, i: int, t: int, voters: set<int>)
    requires i in s.nodes && i !in voters && Willing(s, i, t, voters) && OthersKept(s, s', i)
    requires i in s'.nodes && s'.nodes[i].log == s.nodes[i].log
    ensures Willing(s', i, t, voters)
  {
    hide LogState.LastIndex, LogState.LastTerm;
  }

  /** The poll carries. */
  lemma {:induction false} PollCarries(s: State, c: Configuration, i: int, t: int, yes: set<int>, rest: set<int>)
    returns (steps: seq<Step>)
    requires i in s.nodes && Polling(s, c, i, t, yes)
    requires rest <= c.Peers(i).Keys && Willing(s, i, t, rest) && i !in rest
    requires rest != {} && c.HasQuorum(yes + rest)
    ensures var s' := After(s, steps);
            Campaigning(s', c, i, t, {i}) && i in s'.nodes && OthersKept(s, s', i) && s'.nodes[i].log == s.nodes[i].log
    decreases rest
  {
    hide Polling, Campaigning, Configuration.Peers, Configuration.HasQuorum, Next;
    var v := Pick(rest);
    var asks := Delivery(PreVoteReq(v, RequestOf(s.nodes[i], i, t)));
    var s1 := Next(s, asks);
    AnswersPoll(s, c, i, t, yes, v);
    var hears := Delivery(PreVoteResp(i, v, t, s.nodes[v].raft.Term(), true));
    var s2 := Next(s1, hears);
    HearsYes(s1, c, i, t, yes, v, s.nodes[v].raft.Term());
    AfterTwo(s, asks, hears);
    if c.HasQuorum(yes + {v}) {
      steps := [asks, hears];
    } else {
      var left := rest - {v};
      assert yes + {v} + left == yes + rest && (rest == {v} ==> yes + {v} == yes + rest);
      WillingStill(s, s2, i, t, left);
      var more := PollCarries(s2, c, i, t, yes + {v}, left);
      steps := [asks, hears] + more;
      AfterBoth(s, [asks, hears], more);
    }
  }

  /** And so does the vote. */
  lemma {:induction false} VoteCarries(s: State, c: Configuration, i: int, t: int, votes: set<int>, rest: set<int>)
    returns (steps: seq<Step>)
    requires i in s.nodes && Campaigning(s, c, i, t, votes)
    requires rest <= c.Peers(i).Keys && Willing(s, i, t, rest) && i !in rest
    requires rest != {} && c.HasQuorum(votes + rest)
    ensures var s' := After(s, steps);
            Leads(s', c, i, t) && i in s'.nodes && Voted(s, s', i, t, rest)
    decreases rest
  {
    hide Campaigning, Leads, Configuration.Peers, Configuration.HasQuorum, Next;
    var v := Pick(rest);
    var asks := Delivery(VoteReq(v, RequestOf(s.nodes[i], i, t)));
    var s1 := Next(s, asks);
    GrantsVote(s, c, i, t, votes, v);
    var hears := Delivery(VoteResp(i, v, t, t, true));
    var s2 := Next(s1, hears);
    HearsVote(s1, c, i, t, votes, v);
    AfterTwo(s, asks, hears);
    if c.HasQuorum(votes + {v}) {
      steps := [asks, hears];
    } else {
      var left := rest - {v};
      assert votes + {v} + left == votes + rest && (rest == {v} ==> votes + {v} == votes + rest);
      WillingBut(s, s1, i, t, rest, v);
      WillingStill(s1, s2, i, t, left);
      var more := VoteCarries(s2, c, i, t, votes + {v}, left);
      steps := [asks, hears] + more;
      AfterBoth(s, [asks, hears], more);
    }
  }

  /** An election asks only these, takes them no further than its term and touches no log. */
  predicate Voted(s: State, s': State, i: int, t: int, asked: set<int>) {
    && s'.nodes.Keys == s.nodes.Keys && (forall v :: v in s.nodes ==> s'.nodes[v].log == s.nodes[v].log)
    && (forall v :: v in s.nodes && v != i && v !in asked ==> s'.nodes[v] == s.nodes[v])
    && (forall v :: v in asked && v in s.nodes ==> s'.nodes[v].raft.Term() <= t)
  }

  lemma WillingBut(s: State, s': State, i: int, t: int, voters: set<int>, v: int)
    requires i in s.nodes && i !in voters && v in voters && Willing(s, i, t, voters) && OthersKept(s, s', v)
    ensures i in s'.nodes && Willing(s', i, t, voters - {v})
  {
    hide LogState.LastIndex, LogState.LastTerm;
  }

  /** A member behind in term catches up with one that is ahead by asking it. */
  lemma TermCaughtUp(s: State, c: Configuration, i: int, v: int) returns (steps: seq<Step>)
    requires Formed(s, c) && i in s.nodes && s.nodes[i].raft.role != Leader && v in c.Peers(i) && v in s.nodes
    requires s.nodes[v].raft.Term() > s.nodes[i].raft.Term()
    ensures var s' := After(s, steps);
            && Formed(s', c) && OthersKept(s, s', i) && i in s'.nodes && s'.nodes[i].log == s.nodes[i].log
            && s'.nodes[i].raft.role == Follower && s'.nodes[i].raft.Term() == s.nodes[v].raft.Term()
  {
    hide Next, Formed, MayFollow, Polling, Configuration.Peers;
    var t, term := s.nodes[i].raft.Term() + 1, s.nodes[v].raft.Term();
    PeersAreOthers(c, i, v);
    StartsPoll(s, c, i, t);
    var s1 := Next(s, Timeout(i, Durable, None));
    var asks := Delivery(PreVoteReq(v, RequestOf(s1.nodes[i], i, t)));
    AnswersPoll(s1, c, i, t, {i}, v);
    var s2 := Next(s1, asks);
    var hears := Delivery(PreVoteResp(i, v, t, term, false));
    HearsLaterTerm(s2, c, i, t, {i}, v, term, false);
    steps := [Timeout(i, Durable, None)] + [asks, hears];
    AfterOne(s, Timeout(i, Durable, None));
    AfterBoth(s, [Timeout(i, Durable, None)], [asks, hears]);
    AfterTwo(s1, asks, hears);
  }

  lemma PeersAreOthers(c: Configuration, i: int, v: int)
    requires v in c.Peers(i)
    ensures v != i && c.Peers(i) != map[]
  {
  }

  lemma AfterOne(s: State, a: Step)
    ensures After(s, [a]) == Next(s, a)
  {
    hide Next;
    assert [a][1..] == [];
    assert After(Next(s, a), []) == Next(s, a);
  }

  /** Of some members one has the latest term. */
  lemma {:induction false} LatestTerm(s: State, voters: set<int>) returns (top: int)
    requires voters != {} && voters <= s.nodes.Keys
    ensures top in voters && forall v :: v in voters ==> s.nodes[v].raft.Term() <= s.nodes[top].raft.Term()
    decreases voters
  {
    var v := Pick(voters);
    if voters == {v} {
      top := v;
    } else {
      var rest := LatestTerm(s, voters - {v});
      top := if s.nodes[v].raft.Term() > s.nodes[rest].raft.Term() then v else rest;
    }
  }

  /** A member in the latest term of a quorum whose logs are not ahead of its own is elected for the next. */
  lemma WinsNextTerm(s: State, c: Configuration, i: int, q: set<int>) returns (steps: seq<Step>)
    requires Formed(s, c) && i in s.nodes && s.nodes[i].raft.role != Leader && q <= c.Peers(i).Keys && q != {}
    requires c.HasQuorum({i} + q) && Willing(s, i, s.nodes[i].raft.Term() + 1, q) && i !in q
    ensures var s' := After(s, steps);
            Leads(s', c, i, s.nodes[i].raft.Term() + 1) && i in s'.nodes
            && Voted(s, s', i, s.nodes[i].raft.Term() + 1, q)
  {
    hide Next, Formed, Polling, Campaigning, Leads, Configuration.Peers, Configuration.HasQuorum, Willing, After;
    var t := s.nodes[i].raft.Term() + 1;
    var begin := Timeout(i, Durable, None);
    var first := Pick(q);
    PeersAreOthers(c, i, first);
    StartsPoll(s, c, i, t);
    var s1 := Next(s, begin);
    WillingStill(s, s1, i, t, q);
    var polled := PollCarries(s1, c, i, t, {i}, q);
    var s2 := After(s1, polled);
    WillingStill(s1, s2, i, t, q);
    var voted := VoteCarries(s2, c, i, t, {i}, q);
    steps := [begin] + polled + voted;
    AfterOne(s, begin);
    AfterBoth(s, [begin], polled);
    AfterBoth(s, [begin] + polled, voted);
  }

  /** Alone in its cluster a member needs nobody. */
  lemma WinsAlone(s: State, c: Configuration, i: int)
    requires Formed(s, c) && i in s.nodes && s.nodes[i].raft.role != Leader && c.Peers(i) == map[]
    ensures var s' := Next(s, Timeout(i, Durable, None));
            Leads(s', c, i, s.nodes[i].raft.Term() + 1) && Voted(s, s', i, s.nodes[i].raft.Term() + 1, {})
  {
    hide Formed, Next, StartPreVote, LogState.LastIndex, Configuration.Peers, Unproven;
    var n := s.nodes[i];
    FormedAt(s, c, i);
    Stepped(s, c, Timeout(i, Durable, None));
    AloneIs(s.h, i, n);
    StillFormed(s, c, i, StartPreVote(s.h, i, n, Durable, None));
  }

  lemma AloneIs(h: History, i: int, n: Node)
    requires i in h.full && n.raft.id == i && n.raft.role != Leader && n.raft.config.Peers(i) == map[]
    ensures var e := StartPreVote(h, i, n, Durable, None);
            && e.h.full.Keys == h.full.Keys && e.node.log == n.log && e.node.raft.id == i
            && e.node.raft.config == n.raft.config && e.node.raft.role == Leader
            && e.node.raft.Term() == n.raft.Term() + 1 && Unproven(e.node)
  {
    hide Configuration.HasQuorum, LogState.LastIndex, LogState.LastTerm, Configuration.All;
    assert Persistent(n.raft.Term() + 1, i) != n.raft.persistent;
    assert Uniform(n.raft.config.Peers(i).Keys, 1) == map[];
  }

  /** A restart leaves a follower with its log, aligned, in the term of its record. */
  lemma ComesBack(s: State, c: Configuration, i: int)
    requires Inv(s) && s.config == c && Formed(s, c) && i in s.nodes
    ensures var s' := Next(s, Crash(i));
            && Formed(s', c) && OthersKept(s, s', i) && s'.nodes[i].raft.role == Follower
            && SameLog(s.nodes[i].log, s'.nodes[i].log) && s'.nodes[i].log.Aligned()
            && s'.nodes[i].raft.Term() >= s.nodes[i].raft.Term()
  {
    hide Formed, Next, SameLog, NodeOk, HistoryOk, MsgOk, Restarted;
    var n := s.nodes[i];
    FormedAt(s, c, i);
    Stepped(s, c, Crash(i));
    LogComesBack(c, s.ttl, s.h, i, n);
    StillFormed(s, c, i, Restart(s.h, i, n));
  }

  /** Two logs that end alike and are cut alike. */
  predicate SameLog(a: LogState, b: LogState) {
    a.LastIndex() == b.LastIndex() && a.LastTerm() == b.LastTerm() && a.lastIncludedIndex == b.lastIncludedIndex
  }

  lemma LogComesBack(c: Configuration, ttl: int, h: History, i: int, n: Node)
    requires NodeOk(c, ttl, h, i, n)
    ensures var r := Restarted(n);
            && SameLog(n.log, r.log) && r.log.Aligned() && r.raft.role == Follower && r.raft.id == i
            && r.raft.config == n.raft.config && r.raft.Term() >= n.raft.Term()
  {
    DiskIsNewer(c, ttl, h, i, n);
    assert n.log.lastIncludedTerm == TermOf(h.full[i], n.log.lastIncludedIndex);
    hide BallotOk, KeepsOk, CandidateOk, LeaderOk, RoundsOk, CommitOk, ClientsOk, PollingOk, Grounded, TermsBelow, Fold,
         Represents, Recovered, LogState.RestoreOffset, LogState.LastIndex, LogState.LastTerm;
    var full := h.full[i];
    RestartKeeps(n, full);
    LastAgrees(n.log, full);
    LastAgrees(Restarted(n).log, full);
  }

  /** i leads in a term later than any of these were in; every log ends as it did. */
  ghost predicate Elected(s: State, s': State, c: Configuration, i: int, q: set<int>)
    requires i in s.nodes && q <= s.nodes.Keys
  {
    && i in s'.nodes && Leads(s', c, i, s'.nodes[i].raft.Term()) && s'.nodes.Keys == s.nodes.Keys
    && (forall v :: v in q ==> s.nodes[v].raft.Term() < s'.nodes[i].raft.Term())
    && (forall v :: v in q ==> s'.nodes[v].raft.Term() <= s'.nodes[i].raft.Term())
    && (forall v :: v in s.nodes && v != i ==> s'.nodes[v].log == s.nodes[v].log)
    && SameLog(s.nodes[i].log, s'.nodes[i].log) && s'.nodes[i].log.Aligned()
  }

  /** In any state that satisfies the invariant: a member whose log is not behind those of a quorum can be
      elected, provided somebody else is in that quorum or there is nobody else. */
  lemma Electable(s: State, c: Configuration, i: int, q: set<int>) returns (steps: seq<Step>)
    requires Inv(s) && s.config == c && Formed(s, c) && i in q && q <= s.nodes.Keys && c.HasQuorum(q)
    requires q == {i} ==> c.Peers(i) == map[]
    requires forall v :: v in q ==> MayFollow(s.nodes[v], s.nodes[i])
    ensures Elected(s, After(s, steps), c, i, q)
  {
    hide Inv, Formed, Next, Leads, Configuration.Peers, Configuration.HasQuorum, MayFollow, SameLog, Elected, Willing,
         After;
    var crash, s0 := Crash(i), Next(s, Crash(i));
    ComesBack(s, c, i);
    AfterOne(s, crash);
    OthersArePeers(s, c, i, q);
    MayStillFollow(s, s0, i, q);
    if c.Peers(i) == map[] {
      var t := Timeout(i, Durable, None);
      WinsAlone(s0, c, i);
      steps := [crash, t];
      AfterTwo(s, crash, t);
      assert q - {i} == {};
      ElectedIn(s, s0, s0, After(s, steps), c, i, q);
    } else {
      var caught, s1 := BringsUpTerm(s0, c, i, q);
      var rest := q - {i};
      assert {i} + rest == q;
      var won := WinsNextTerm(s1, c, i, rest);
      steps := [crash] + caught + won;
      AfterBoth(s, [crash], caught);
      AfterBoth(s, [crash] + caught, won);
      WillingTerms(s0, s1, i, q);
      ElectedIn(s, s0, s1, After(s, steps), c, i, q);
    }
  }

  lemma MayStillFollow(s: State, s': State, i: int, q: set<int>)
    requires i in s.nodes && q <= s.nodes.Keys && OthersKept(s, s', i) && SameLog(s.nodes[i].log, s'.nodes[i].log)
    requires forall v :: v in q ==> MayFollow(s.nodes[v], s.nodes[i])
    ensures forall v :: v in q ==> MayFollow(s'.nodes[v], s'.nodes[i])
  {
    hide LogState.LastIndex, LogState.LastTerm;
  }

  lemma WillingTerms(s: State, s': State, i: int, q: set<int>)
    requires i in s'.nodes && q <= s.nodes.Keys && OthersKept(s, s', i)
    requires Willing(s', i, s'.nodes[i].raft.Term() + 1, q - {i})
    ensures forall v :: v in q && v != i ==> s.nodes[v].raft.Term() <= s'.nodes[i].raft.Term()
  {
    hide MayFollow;
    assert forall v :: v in q && v != i ==> v in q - {i};
  }

  /** The stages of an election put together. */
  lemma ElectedIn(s: State, s0: State, s1: State, s2: State, c: Configuration, i: int, q: set<int>)
    requires i in s.nodes && q <= s.nodes.Keys && OthersKept(s, s0, i) && OthersKept(s0, s1, i)
    requires Voted(s1, s2, i, s1.nodes[i].raft.Term() + 1, q - {i})
    requires SameLog(s.nodes[i].log, s0.nodes[i].log) && s0.nodes[i].log.Aligned()
    requires s.nodes[i].raft.Term() <= s0.nodes[i].raft.Term() <= s1.nodes[i].raft.Term()
    requires s1.nodes[i].log == s0.nodes[i].log && Leads(s2, c, i, s1.nodes[i].raft.Term() + 1)
    requires forall v :: v in q && v != i ==> s0.nodes[v].raft.Term() <= s1.nodes[i].raft.Term()
    ensures Elected(s, s2, c, i, q)
  {
    hide Formed, SameLog, Unproven;
  }

  lemma OthersArePeers(s: State, c: Configuration, i: int, q: set<int>)
    requires Formed(s, c) && i in q && q <= s.nodes.Keys
    ensures q - {i} <= c.Peers(i).Keys && (c.Peers(i) == map[] ==> q == {i})
  {
    hide Configuration.All;
    assert c.Peers(i).Keys == c.All().Keys - {i};
    assert c.Peers(i) == map[] ==> c.Peers(i).Keys == {};
    if q - {i} == {} {
      assert q == {i};
    }
  }

  /** Up to the latest term of the quorum, if it is not there yet. */
  lemma BringsUpTerm(s: State, c: Configuration, i: int, q: set<int>) returns (steps: seq<Step>, s': State)
    requires Formed(s, c) && i in q && q <= s.nodes.Keys && q - {i} <= c.Peers(i).Keys
    requires s.nodes[i].raft.role == Follower && (forall v :: v in q ==> MayFollow(s.nodes[v], s.nodes[i]))
    ensures s' == After(s, steps) && Formed(s', c) && OthersKept(s, s', i) && i in s'.nodes
    ensures s'.nodes[i].log == s.nodes[i].log && s'.nodes[i].raft.role == Follower
    ensures s'.nodes[i].raft.Term() >= s.nodes[i].raft.Term()
    ensures Willing(s', i, s'.nodes[i].raft.Term() + 1, q - {i})
  {
    hide Formed, Next, Configuration.Peers, LogState.LastIndex, LogState.LastTerm;
    var top := LatestTerm(s, q);
    if s.nodes[top].raft.Term() > s.nodes[i].raft.Term() {
      steps := TermCaughtUp(s, c, i, top);
      s' := After(s, steps);
    } else {
      steps, s' := [], s;
    }
  }

  // ---- From every reachable state ----

  lemma FormedByInv(s: State)
    requires Inv(s)
    ensures Formed(s, s.config)
  {
    hide MsgOk, LogOk, BallotOk, KeepsOk, CandidateOk, LeaderOk, RoundsOk, CommitOk, MachineOk, ClientsOk, PollingOk;
    hide VotesOk, ReignsOk, AcksOk, CommitsOk, SeenOk, PollsOk, ReadsOk, ReleasedOk, WrittenOk, Configuration.All;
  }

  lemma EveryoneIsQuorum(c: Configuration)
    requires c.voters != map[]
    ensures c.HasQuorum(c.All().Keys)
  {
    assert c.voters.Keys * c.All().Keys == c.voters.Keys && c.oldVoters.Keys * c.All().Keys == c.oldVoters.Keys;
    assert c.voters.Keys == {} ==> c.voters == map[];
  }

  /** Of some members one has a log not behind any other's. */
  lemma {:induction false} LatestLog(s: State, members: set<int>) returns (top: int)
    requires members != {} && members <= s.nodes.Keys
    ensures top in members && forall v :: v in members ==> MayFollow(s.nodes[v], s.nodes[top])
    decreases members
  {
    hide LogState.LastIndex, LogState.LastTerm;
    var v := Pick(members);
    if members == {v} {
      top := v;
    } else {
      var rest := LatestLog(s, members - {v});
      top := if MayFollow(s.nodes[v], s.nodes[rest]) then rest else v;
    }
  }

  /** From every reachable state of every cluster some continuation elects a leader, in a term later than
      any there was. */
  lemma SomeoneCanLead(c: Configuration, ttl: int, run: Run, a: nat) returns (i: int, steps: seq<Step>)
    requires run.Of(c, ttl) && a < |run.states|
    ensures var s := run.states[a];
            i in s.nodes && Elected(s, After(s, steps), c, i, s.nodes.Keys)
  {
    hide Run.Of, HistoryOk, NodeOk, MsgOk, Configuration.HasQuorum, Configuration.Peers, Configuration.All, MayFollow,
         Elected, Next, After;
    RunOk(c, ttl, run, a);
    var s := run.states[a];
    FormedByInv(s);
    EveryoneIsQuorum(c);
    SomebodyExists(c);
    i := LatestLog(s, s.nodes.Keys);
    OthersArePeers(s, c, i, s.nodes.Keys);
    AloneHasNoPeers(c, i);
    steps := Electable(s, c, i, s.nodes.Keys);
  }

  lemma SomebodyExists(c: Configuration)
    requires c.voters != map[]
    ensures c.All().Keys != {}
  {
    assert c.voters.Keys <= c.All().Keys && (c.voters.Keys == {} ==> c.voters == map[]);
  }

  lemma AloneHasNoPeers(c: Configuration, i: int)
    ensures c.All().Keys == {i} ==> c.Peers(i) == map[]
  {
    hide Configuration.All;
    assert c.Peers(i).Keys == c.All().Keys - {i};
    assert c.Peers(i).Keys == {} ==> c.Peers(i) == map[];
  }

  /** A run cut short and taken one step on is a run. */
  lemma OneStepOn(c: Configuration, ttl: int, run: Run, a: nat, step: Step) returns (longer: Run)
    requires run.Of(c, ttl) && a < |run.states|
    ensures longer.Of(c, ttl) && |longer.states| == a + 2 && longer.states[..a + 1] == run.states[..a + 1]
    ensures longer.states[a + 1] == Next(run.states[a], step)
  {
    hide Next, Start, Bootable;
    longer := Run(run.states[..a + 1] + [Next(run.states[a], step)], run.steps[..a] + [step]);
    forall k | 0 <= k < a + 1
      ensures longer.Linked(k)
    {
      if k < a {
        assert run.Linked(k);
      }
    }
  }

  lemma RunCut(c: Configuration, ttl: int, run: Run, a: nat) returns (short: Run)
    requires run.Of(c, ttl) && a < |run.states|
    ensures short.Of(c, ttl) && short.states == run.states[..a + 1]
  {
    hide Next, Start, Bootable;
    short := Run(run.states[..a + 1], run.steps[..a]);
    forall k | 0 <= k < |short.steps|
      ensures short.Linked(k)
    {
      assert run.Linked(k);
      assert short.states[k] == run.states[k] && short.states[k + 1] == run.states[k + 1];
    }
  }

  /** Such a continuation is a run. */
  lemma {:induction false} TakenOn(c: Configuration, ttl: int, run: Run, a: nat, steps: seq<Step>)
    returns (longer: Run)
    requires run.Of(c, ttl) && a < |run.states|
    ensures longer.Of(c, ttl) && |longer.states| == a + 1 + |steps| && longer.states[..a + 1] == run.states[..a + 1]
    ensures longer.states[a + |steps|] == After(run.states[a], steps)
    decreases |steps|
  {
    hide Next, Run.Of;
    if steps == [] {
      longer := RunCut(c, ttl, run, a);
    } else {
      var one := OneStepOn(c, ttl, run, a, steps[0]);
      longer := TakenOn(c, ttl, one, a + 1, steps[1..]);
      assert longer.states[..a + 2][..a + 1] == one.states[..a + 2][..a + 1];
    }
  }
}
