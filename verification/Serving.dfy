/** And a cluster that has elected a leader works: whatever the followers' logs hold, a write given to a
    leader that has compacted nothing reaches a quorum, is committed and is acknowledged. */
module Serving {
  import opened Sets
  import opened Membership
  import opened Store
  import opened RaftLog
  import opened Consensus
  import opened Ledger
  import opened Cluster
  import opened Invariant
  import opened Replication
  import opened Runs
  import opened Decisions
  import opened Safety
  import opened Backtrack
  import opened Progress

  /** A message delivered to a disk with room for so many writes. */
  function Arrival(m: Msg, writes: nat): Step {
    Deliver(m.to, m, false, Durable, writes, Completes, true, None)
  }

  /** i leads in term t with this log, none of it compacted. */
  ghost predicate Leading(s: State, c: Configuration, i: int, t: int, full: Log) {
    && Inv(s) && s.config == c && Formed(s, c) && i in s.nodes && s.h.full[i] == full
    && s.nodes[i].raft.role == Leader && s.nodes[i].raft.Term() == t && s.nodes[i].log.lastIncludedIndex == 0
    && s.nodes[i].raft.nextIndex.Keys == s.nodes[i].raft.matchIndex.Keys == c.Peers(i).Keys
  }

  lemma LeadingFacts(s: State, c: Configuration, i: int, t: int, full: Log)
    requires Leading(s, c, i, t, full)
    ensures Represents(s.nodes[i].log, full) && t in s.h.reigns && s.h.reigns[t].log == full
    ensures s.nodes[i].log.firstIndex == 1 && s.nodes[i].log.LastIndex() == |full|
    ensures c.voters != map[] && 0 <= s.nodes[i].raft.commitIndex <= |full|
    ensures forall p :: p in s.nodes[i].raft.matchIndex ==> s.nodes[i].raft.matchIndex[p] <= |full|
  {
    hide MsgOk, LogState.LastIndex, Configuration.All, Configuration.Peers;
    var n := s.nodes[i];
    LeaderFacts(c, s.ttl, s.h, i, n);
    LastAgrees(n.log, full);
    MatchBounded(c, s.ttl, s.h, i, n);
    assert n.log.firstIndex == 1;
  }

  lemma MatchBounded(c: Configuration, ttl: int, h: History, i: int, n: Node)
    requires HistoryOk(c, h) && NodeOk(c, ttl, h, i, n) && n.raft.role == Leader
    ensures forall p :: p in n.raft.matchIndex ==> n.raft.matchIndex[p] <= |h.full[i]|
  {
    hide LogOk, BallotOk, KeepsOk, CandidateOk, RoundsOk, CommitOk, MachineOk, ClientsOk, PollingOk;
    LedgerCommits(c, h);
  }

  /** A step of one member leaves the leader leading if it leaves the leader and its log alone. */
  lemma StillLeading(s: State, c: Configuration, i: int, t: int, full: Log, step: Step)
    requires Leading(s, c, i, t, full)
    ensures Inv(Next(s, step)) && Next(s, step).config == c && Formed(Next(s, step), c)
    ensures s.net <= Next(s, step).net
  {
    hide HistoryOk, NodeOk, MsgOk, Next, Formed;
    NextOk(s, step);
    FormedByInv(Next(s, step));
  }

  // ---- One round with one follower ----

  /** The entries a follower is offered, from its next index on. */
  function Offer(n: Node, i: int, t: int, full: Log, v: int): Msg
    requires v in n.raft.nextIndex && 1 <= n.raft.nextIndex[v] <= |full| + 1
  {
    var prev := n.raft.nextIndex[v] - 1;
    AppendReq(v, n.engine.roundSeq + 1,
              AppendRequest(t, i, prev, TermOf(full, prev), full[prev..], n.raft.commitIndex))
  }

  lemma Offers(s: State, c: Configuration, i: int, t: int, full: Log, v: int)
    requires Leading(s, c, i, t, full) && v in c.Peers(i) && v in s.nodes[i].raft.nextIndex
    requires 1 <= s.nodes[i].raft.nextIndex[v] <= |full| + 1
    ensures var n, s' := s.nodes[i], Next(s, SendEntries(i, v));
            && Leading(s', c, i, t, full) && OthersKept(s, s', i) && s'.h.full == s.h.full
            && s'.nodes[i] == n.(engine := n.engine.(roundSeq := n.engine.roundSeq + 1))
            && Offer(n, i, t, full, v) in s'.net
  {
    hide Inv, Formed, Next, Configuration.Peers, Configuration.All, Represents;
    var n := s.nodes[i];
    LeadingFacts(s, c, i, t, full);
    FormedAt(s, c, i);
    EntriesRequested(s.h, i, n, full, v);
    StillLeading(s, c, i, t, full, SendEntries(i, v));
    Stepped(s, c, SendEntries(i, v));
    StillFormed(s, c, i, SendAppend(s.h, i, n, v));
    hide BuildAppend, TermOf;
  }

  /** The follower's log agrees with the leader's at this index. */
  predicate AgreesAt(held: Log, full: Log, prev: int) {
    prev == 0 || (prev <= |held| && TermOf(held, prev) == TermOf(full, prev))
  }

  /** An offer of the leader's log from some index on, to a follower that has not compacted past it. */
  predicate IsOffer(req: AppendRequest, held: Log, full: Log, base: int) {
    var prev := req.prevLogIndex;
    && 0 <= base <= prev <= |full| && req.entries == full[prev..] && req.prevLogTerm == TermOf(full, prev)
    && (AgreesAt(held, full, prev) || prev > base)
  }

  /** What a follower makes of an offer: all of it if the logs agree before it; otherwise nothing, and a
      hint above what it has compacted. */
  lemma OfferDecided(r: Raft, log: LogState, held: Log, req: AppendRequest, full: Log, writes: nat)
    requires Represents(log, held) && WellIndexed(full) && PositiveTerms(full) && r.Term() <= req.term
    requires IsOffer(req, held, full, log.lastIncludedIndex) && writes > |full|
    ensures var (n, log', resp) := r.HandleAppendEntries(log, req, Durable, writes);
            && n.id == r.id && n.config == r.config && n.Term() == req.term
            && AnswerTo(resp, req.term, held, full, req.prevLogIndex, log.lastIncludedIndex)
            && (resp.success || log' == log)
  {
    var prev := req.prevLogIndex;
    assert Contiguous(req.entries, prev) && |req.entries| == |full| - prev && (prev > 0 ==> TermOf(full, prev) >= 1);
    hide Represents, AppendEntries, Agreeing, Raft.HandleAppendEntries, WellIndexed, Contiguous, PositiveTerms, TermOf;
    AppendAnsweredExactlyWhen(r, log, held, req, Durable, writes);
    AnswerIs(r, log, req, Durable, writes);
    KeepsIdentity(r, log, req, Durable, writes);
    if !AgreesAt(held, full, prev) {
      NoTermBeyond(held, prev);
      RefusalHints(log, held, prev, req.prevLogTerm, req.entries, writes);
    }
  }

  lemma NoTermBeyond(log: Log, k: int)
    ensures k > |log| ==> TermOf(log, k) == 0
  {
  }

  lemma OfferAnswered(h: History, v: int, n: Node, held: Log, m: Msg, full: Log, writes: nat)
    requires m.AppendReq? && v in h.full && Represents(n.log, held) && n.raft.Term() <= m.append.term
    requires WellIndexed(full) && PositiveTerms(full) && writes > |full|
    requires IsOffer(m.append, held, full, n.log.lastIncludedIndex)
    ensures var e, prev := OnAppendReq(h, v, n, m, Durable, writes), m.append.prevLogIndex;
            && e.h.full.Keys == h.full.Keys && (forall p :: p in h.full && p != v ==> e.h.full[p] == h.full[p])
            && e.node.raft.id == n.raft.id && e.node.raft.config == n.raft.config && e.node.raft.Term() == m.append.term
            && exists resp :: e.out == {AppendResp(m.append.leaderID, v, m.append.term, m.round, resp)}
                              && AnswerTo(resp, m.append.term, held, full, prev, n.log.lastIncludedIndex)
                              && (resp.success || e.node.log == n.log)
  {
    hide Represents, FullAfterAppend, Raise, Raft.HandleAppendEntries, Raft.Accept, WellIndexed, PositiveTerms, IsOffer,
         AnswerTo;
    OfferDecided(n.raft, n.log, held, m.append, full, writes);
    var resp := n.raft.HandleAppendEntries(n.log, m.append, Durable, writes).2;
    assert AnswerTo(resp, m.append.term, held, full, m.append.prevLogIndex, n.log.lastIncludedIndex);
  }

  predicate AnswerTo(resp: AppendResponse, t: int, held: Log, full: Log, prev: int, base: int) {
    && resp.term == t && (resp.success <==> AgreesAt(held, full, prev))
    && (resp.success ==> resp.matchIndex == |full|)
    && (!resp.success ==> base < resp.conflictIndex <= prev)
  }

  lemma KeepsIdentity(r: Raft, log: LogState, req: AppendRequest, io: Disk, writes: nat)
    ensures var n := r.HandleAppendEntries(log, req, io, writes).0;
            n.id == r.id && n.config == r.config
  {
    hide AppendEntries;
  }

  /** What a leader makes of the answer. */
  lemma AnswerBooked(h: History, i: int, n: Node, m: Msg, full: Log)
    requires m.AppendResp? && n.raft.role == Leader && m.sent == n.raft.Term() == m.appended.term
    requires m.from in n.raft.config.Peers(i) && m.from in n.raft.matchIndex && m.from in n.raft.nextIndex
    requires n.raft.matchIndex[m.from] <= |full| && 1 <= n.raft.nextIndex[m.from] <= |full| + 1
    requires if m.appended.success then m.appended.matchIndex == |full|
             else 0 < m.appended.conflictIndex < n.raft.nextIndex[m.from]
    ensures var r, e := m.appended, OnAppendResp(h, i, n, m, Durable, true);
            && e.h == h && e.out == {} && e.node.log == n.log && e.node.engine.waiters == n.engine.waiters
            && e.node.raft == n.raft.(matchIndex := e.node.raft.matchIndex, nextIndex := e.node.raft.nextIndex)
            && e.node.raft.matchIndex == (if r.success then n.raft.matchIndex[m.from := |full|] else n.raft.matchIndex)
            && e.node.raft.nextIndex == n.raft.nextIndex[m.from := if r.success then |full| + 1 else r.conflictIndex]
  {
    hide Configuration.Peers;
  }

  // ---- Bringing one follower up to date ----

  lemma FollowerFacts(s: State, c: Configuration, i: int, t: int, full: Log, v: int)
    requires Leading(s, c, i, t, full) && v in s.nodes && s.nodes[v].raft.Term() <= t
    ensures v in s.h.full && Represents(s.nodes[v].log, s.h.full[v])
    ensures var b, held := s.nodes[v].log.lastIncludedIndex, s.h.full[v];
            0 <= b <= |held| && b <= |full| && AgreesAt(held, full, b)
    ensures WellIndexed(full) && PositiveTerms(full)
  {
    hide MsgOk, SeenOk, PollsOk, ReadsOk, ReleasedOk, WrittenOk, LedgerOk, NodeOk, Configuration.All,
         Configuration.Peers;
    LogFacts(c, s.ttl, s.h, i, s.nodes[i]);
    LogFacts(c, s.ttl, s.h, v, s.nodes[v]);
    BoundaryHeld(c, s.ttl, s.h, i, s.nodes[i], v, s.nodes[v]);
    GroundedIsPositive(c, s.h, full);
    var b, held := s.nodes[v].log.lastIncludedIndex, s.h.full[v];
    assert b > 0 ==> held[..b][b - 1] == full[..b][b - 1];
  }

  /** The offer is delivered and answered. */
  lemma Answers(s: State, c: Configuration, i: int, t: int, full: Log, v: int, m: Msg) returns (resp: AppendResponse)
    requires Leading(s, c, i, t, full) && v in s.nodes && v != i && s.nodes[v].raft.Term() <= t && m in s.net
    requires m.AppendReq? && m.to == v && m.append.leaderID == i && m.append.term == t
    requires v in s.h.full && IsOffer(m.append, s.h.full[v], full, s.nodes[v].log.lastIncludedIndex)
    ensures var s', prev := Next(s, Arrival(m, |full| + 1)), m.append.prevLogIndex;
            && Leading(s', c, i, t, full) && OthersKept(s, s', v) && s'.nodes[v].raft.Term() == t
            && AppendResp(i, v, t, m.round, resp) in s'.net
            && AnswerTo(resp, t, s.h.full[v], full, prev, s.nodes[v].log.lastIncludedIndex)
            && (resp.success || s'.nodes[v].log == s.nodes[v].log)
  {
    hide Inv, Formed, Next, Configuration.Peers, Configuration.All, Represents, AgreesAt, IsOffer, AnswerTo,
         OnAppendReq;
    LeadingFacts(s, c, i, t, full);
    FollowerFacts(s, c, i, t, full, v);
    FormedAt(s, c, v);
    FormedAt(s, c, i);
    var n, prev := s.nodes[v], m.append.prevLogIndex;
    OfferAnswered(s.h, v, n, s.h.full[v], m, full, |full| + 1);
    var e := OnAppendReq(s.h, v, n, m, Durable, |full| + 1);
    resp :| e.out == {AppendResp(i, v, t, m.round, resp)}
            && AnswerTo(resp, t, s.h.full[v], full, prev, n.log.lastIncludedIndex)
            && (resp.success || e.node.log == n.log);
    StillLeading(s, c, i, t, full, Arrival(m, |full| + 1));
    Stepped(s, c, Arrival(m, |full| + 1));
    assert Act(s.ttl, s.h, v, n, Arrival(m, |full| + 1)) == e;
    StillFormed(s, c, v, e);
  }

  /** And the answer booked. */
  lemma Books(s: State, c: Configuration, i: int, t: int, full: Log, v: int, round: int, resp: AppendResponse)
    requires Leading(s, c, i, t, full) && v in c.Peers(i) && v in s.nodes[i].raft.nextIndex
    requires AppendResp(i, v, t, round, resp) in s.net && resp.term == t
    requires 1 <= s.nodes[i].raft.nextIndex[v] <= |full| + 1
    requires if resp.success then resp.matchIndex == |full| else 0 < resp.conflictIndex < s.nodes[i].raft.nextIndex[v]
    ensures var n, s' := s.nodes[i], Next(s, Arrival(AppendResp(i, v, t, round, resp), 0));
            && Leading(s', c, i, t, full) && OthersKept(s, s', i) && s'.h == s.h
            && Booked(n, s'.nodes[i], v, if resp.success then |full| + 1 else resp.conflictIndex)
            && (resp.success ==> v in s'.nodes[i].raft.matchIndex && s'.nodes[i].raft.matchIndex[v] == |full|)
  {
    hide Inv, Formed, Next, Configuration.Peers, Configuration.All, OnAppendResp;
    var n, m := s.nodes[i], AppendResp(i, v, t, round, resp);
    LeadingFacts(s, c, i, t, full);
    FormedAt(s, c, i);
    AnswerBooked(s.h, i, n, m, full);
    StillLeading(s, c, i, t, full, Arrival(m, 0));
    Stepped(s, c, Arrival(m, 0));
    var e := OnAppendResp(s.h, i, n, m, Durable, true);
    assert Act(s.ttl, s.h, i, n, Arrival(m, 0)) == e;
    StillFormed(s, c, i, e);
  }

  /** Only v's progress has changed. */
  predicate Booked(n: Node, n': Node, v: int, next: int) {
    && n'.log == n.log && n'.engine.waiters == n.engine.waiters && n'.raft.commitIndex == n.raft.commitIndex
    && n'.raft.matchIndex.Keys == n.raft.matchIndex.Keys && n'.raft.nextIndex.Keys == n.raft.nextIndex.Keys
    && (forall p :: p in n.raft.matchIndex && p != v ==> n'.raft.matchIndex[p] == n.raft.matchIndex[p])
    && (forall p :: p in n.raft.nextIndex && p != v ==> n'.raft.nextIndex[p] == n.raft.nextIndex[p])
    && v in n'.raft.nextIndex && n'.raft.nextIndex[v] == next
  }

  lemma BookedTwice(n: Node, n1: Node, n2: Node, v: int, next: int, last: int)
    requires Booked(n, n1, v, next) && Booked(n1, n2, v, last)
    ensures Booked(n, n2, v, last)
  {
  }

  lemma AfterThree(s: State, a: Step, b: Step, d: Step)
    ensures After(s, [a] + [b, d]) == Next(Next(Next(s, a), b), d)
  {
    hide Next;
    AfterOne(s, a);
    AfterBoth(s, [a], [b, d]);
    AfterTwo(Next(s, a), b, d);
  }

  /** Everybody but the two as they were. */
  predicate BetweenTwo(s: State, s': State, i: int, v: int) {
    && s'.nodes.Keys == s.nodes.Keys
    && (forall p :: p in s.nodes && p != i && p != v ==> s'.nodes[p] == s.nodes[p])
  }

  lemma NothingBooked(n: Node, n': Node, v: int)
    requires v in n.raft.nextIndex && n' == n.(engine := n.engine.(roundSeq := n'.engine.roundSeq))
    ensures Booked(n, n', v, n.raft.nextIndex[v])
  {
  }

  lemma OfferMade(s: State, c: Configuration, i: int, t: int, full: Log, v: int)
    requires Leading(s, c, i, t, full) && v in c.Peers(i) && v in s.nodes && s.nodes[v].raft.Term() <= t
    requires v in s.nodes[i].raft.nextIndex
    requires s.nodes[v].log.lastIncludedIndex < s.nodes[i].raft.nextIndex[v] <= |full| + 1
    ensures v != i && v in s.h.full && 0 <= s.nodes[v].log.lastIncludedIndex
    ensures var m := Offer(s.nodes[i], i, t, full, v);
            && m.AppendReq? && m.to == v && m.append.leaderID == i && m.append.term == t
            && m.append.prevLogIndex == s.nodes[i].raft.nextIndex[v] - 1
            && IsOffer(m.append, s.h.full[v], full, s.nodes[v].log.lastIncludedIndex)
  {
    hide Inv, Formed, Configuration.Peers, Represents, PositiveTerms, TermOf;
    FollowerFacts(s, c, i, t, full, v);
    PeersAreOthers(c, i, v);
  }

  /** One round: offered, answered, booked. */
  lemma Round(s: State, c: Configuration, i: int, t: int, full: Log, v: int)
    returns (steps: seq<Step>, s': State, next: int, stored: bool)
    requires i in s.nodes && Leading(s, c, i, t, full) && v in c.Peers(i) && v in s.nodes && s.nodes[v].raft.Term() <= t
    requires v in s.nodes[i].raft.nextIndex
    requires s.nodes[v].log.lastIncludedIndex < s.nodes[i].raft.nextIndex[v] <= |full| + 1
    ensures s' == After(s, steps) && Leading(s', c, i, t, full) && BetweenTwo(s, s', i, v)
    ensures Booked(s.nodes[i], s'.nodes[i], v, next) && s'.nodes[v].raft.Term() == t
    ensures stored ==> v in s'.nodes[i].raft.matchIndex && s'.nodes[i].raft.matchIndex[v] == |full|
    ensures !stored ==> s'.nodes[v].log == s.nodes[v].log
    ensures !stored ==> s.nodes[v].log.lastIncludedIndex < next < s.nodes[i].raft.nextIndex[v]
  {
    hide Leading, Next, Configuration.Peers, AgreesAt, IsOffer, Offer, After, Booked;
    var n, b := s.nodes[i], s.nodes[v].log.lastIncludedIndex;
    OfferMade(s, c, i, t, full, v);
    var m := Offer(n, i, t, full, v);
    Offers(s, c, i, t, full, v);
    var s1 := Next(s, SendEntries(i, v));
    var resp := Answers(s1, c, i, t, full, v, m);
    var s2 := Next(s1, Arrival(m, |full| + 1));
    var back := AppendResp(i, v, t, m.round, resp);
    Books(s2, c, i, t, full, v, m.round, resp);
    s' := Next(s2, Arrival(back, 0));
    steps := [SendEntries(i, v)] + [Arrival(m, |full| + 1), Arrival(back, 0)];
    AfterThree(s, SendEntries(i, v), Arrival(m, |full| + 1), Arrival(back, 0));
    next := if resp.success then |full| + 1 else resp.conflictIndex;
    stored := resp.success;
    NothingBooked(n, s1.nodes[i], v);
    BookedTwice(n, s1.nodes[i], s'.nodes[i], v, n.raft.nextIndex[v], next);
  }

  /** Round after round, until the follower holds the leader's log. */
  lemma {:induction false} SyncOne(s: State, c: Configuration, i: int, t: int, full: Log, v: int)
    returns (steps: seq<Step>, s': State)
    requires Leading(s, c, i, t, full) && v in c.Peers(i) && v in s.nodes && s.nodes[v].raft.Term() <= t
    requires v in s.nodes[i].raft.nextIndex
    requires s.nodes[v].log.lastIncludedIndex < s.nodes[i].raft.nextIndex[v] <= |full| + 1
    ensures s' == After(s, steps) && Leading(s', c, i, t, full) && BetweenTwo(s, s', i, v)
    ensures v in s'.nodes[i].raft.nextIndex && v in s'.nodes[i].raft.matchIndex
    ensures Booked(s.nodes[i], s'.nodes[i], v, s'.nodes[i].raft.nextIndex[v])
    ensures s'.nodes[i].raft.matchIndex[v] == |full|
    decreases s.nodes[i].raft.nextIndex[v] - s.nodes[v].log.lastIncludedIndex
  {
    hide Inv, Formed, Next, Configuration.Peers, Configuration.All, After;
    var next, stored;
    steps, s', next, stored := Round(s, c, i, t, full, v);
    if !stored {
      var s1 := s';
      PeersAreOthers(c, i, v);
      var more;
      more, s' := SyncOne(s1, c, i, t, full, v);
      AfterBoth(s, steps, more);
      BookedTwice(s.nodes[i], s1.nodes[i], s'.nodes[i], v, next, s'.nodes[i].raft.nextIndex[v]);
      steps := steps + more;
    }
  }

  // ---- Committing ----

  /** Only these followers' progress has changed, and each of them holds the leader's log. */
  predicate AllBooked(n: Node, n': Node, done: set<int>, last: int) {
    && n'.log == n.log && n'.engine.waiters == n.engine.waiters && n'.raft.commitIndex == n.raft.commitIndex
    && n'.raft.nextIndex.Keys == n.raft.nextIndex.Keys && n'.raft.matchIndex.Keys == n.raft.matchIndex.Keys
    && (forall p :: p in n.raft.nextIndex && p !in done ==> n'.raft.nextIndex[p] == n.raft.nextIndex[p])
    && (forall p :: p in n.raft.matchIndex && p !in done ==> n'.raft.matchIndex[p] == n.raft.matchIndex[p])
    && (forall p :: p in done ==> p in n'.raft.matchIndex && n'.raft.matchIndex[p] == last)
  }

  /** A follower that can be brought up to date. */
  predicate Reachable(s: State, i: int, t: int, full: Log, v: int)
    requires i in s.nodes
  {
    && v in s.nodes && v != i && s.nodes[v].raft.Term() <= t && v in s.nodes[i].raft.nextIndex
    && s.nodes[v].log.lastIncludedIndex < s.nodes[i].raft.nextIndex[v] <= |full| + 1
  }

  lemma {:induction false} SyncAll(s: State, c: Configuration, i: int, t: int, full: Log, rest: set<int>)
    returns (steps: seq<Step>, s': State)
    requires i in s.nodes && Leading(s, c, i, t, full) && rest <= c.Peers(i).Keys
    requires forall v :: v in rest ==> Reachable(s, i, t, full, v)
    ensures s' == After(s, steps) && i in s'.nodes && Leading(s', c, i, t, full)
    ensures AllBooked(s.nodes[i], s'.nodes[i], rest, |full|)
    decreases rest
  {
    hide Leading, Next, Configuration.Peers, After;
    if rest == {} {
      steps, s' := [], s;
      AfterNothing(s);
    } else {
      var v := Pick(rest);
      var first, s1 := SyncOne(s, c, i, t, full, v);
      var left := rest - {v};
      StillReachable(s, s1, i, t, full, v, left);
      var more;
      more, s' := SyncAll(s1, c, i, t, full, left);
      steps := first + more;
      AfterBoth(s, first, more);
      BookedAll(s.nodes[i], s1.nodes[i], s'.nodes[i], v, left, |full|);
    }
  }

  lemma AfterNothing(s: State)
    ensures After(s, []) == s
  {
  }

  lemma StillReachable(s: State, s': State, i: int, t: int, full: Log, v: int, left: set<int>)
    requires i in s.nodes && i in s'.nodes && v !in left && BetweenTwo(s, s', i, v)
    requires v in s'.nodes[i].raft.nextIndex && Booked(s.nodes[i], s'.nodes[i], v, s'.nodes[i].raft.nextIndex[v])
    requires forall p :: p in left ==> Reachable(s, i, t, full, p)
    ensures forall p :: p in left ==> Reachable(s', i, t, full, p)
  {
  }

  lemma BookedAll(n: Node, n1: Node, n2: Node, v: int, left: set<int>, last: int)
    requires v !in left && v in n1.raft.nextIndex && Booked(n, n1, v, n1.raft.nextIndex[v])
    requires v in n1.raft.matchIndex && n1.raft.matchIndex[v] == last && AllBooked(n1, n2, left, last)
    ensures AllBooked(n, n2, left + {v}, last)
  {
  }

  lemma MoreIsQuorum(c: Configuration, q: set<int>, more: set<int>)
    requires c.HasQuorum(q) && q <= more
    ensures c.HasQuorum(more)
  {
    SubsetSize(c.voters.Keys * q, c.voters.Keys * more);
    SubsetSize(c.oldVoters.Keys * q, c.oldVoters.Keys * more);
  }

  lemma NobodyIsNoQuorum(c: Configuration)
    requires c.voters != map[]
    ensures !c.HasQuorum({})
  {
    assert c.voters.Keys * {} == {};
    assert c.voters.Keys == {} ==> c.voters == map[];
  }

  /** With a quorum holding all of a log that ends in the leader's own term, the tick commits it all. */
  lemma CommitsAll(r: Raft, log: LogState, full: Log, q: set<int>)
    requires r.config.voters != map[] && r.role == Leader && Represents(log, full) && full != []
    requires full[|full| - 1].term == r.Term() && r.commitIndex < |full|
    requires r.config.HasQuorum(q) && r.id in q && q <= r.config.All().Keys
    requires forall p :: p in q && p != r.id ==> p in r.matchIndex && r.matchIndex[p] == |full|
    requires forall p :: p in r.matchIndex ==> r.matchIndex[p] <= |full|
    ensures r.AdvanceCommitIndex(log, r.Term()).commitIndex == |full|
  {
    hide Represents, LogState.LastIndex, LogState.TermAt, Raft.AdvanceCommitIndex, Configuration.All, HoldersOf,
         Configuration.HasQuorum, LogState.LastTerm, WellIndexed;
    EndOf(log, full);
    HeldByQuorum(r, log, full, q);
    MoreIsQuorum(r.config, q, HoldersOf(r, log, |full|));
    NobodyIsNoQuorum(r.config);
    CommitsExactlyWhen(r, log, r.Term(), |full|);
  }

  lemma EndOf(log: LogState, full: Log)
    requires Represents(log, full) && full != []
    ensures log.LastIndex() == |full| && log.TermAt(|full|) == full[|full| - 1].term
  {
    LastAgrees(log, full);
    AccessorsAgree(log, full, |full|);
  }

  lemma HeldByQuorum(r: Raft, log: LogState, full: Log, q: set<int>)
    requires log.LastIndex() == |full| && q <= r.config.All().Keys
    requires forall p :: p in q && p != r.id ==> p in r.matchIndex && r.matchIndex[p] == |full|
    requires forall p :: p in r.matchIndex ==> r.matchIndex[p] <= |full|
    ensures q <= HoldersOf(r, log, |full|) && HoldersOf(r, log, |full| + 1) == {}
  {
    hide LogState.LastIndex, Configuration.All;
  }

  lemma Ticks(s: State, c: Configuration, i: int, t: int, full: Log, q: set<int>, w: Waiter)
    requires i in s.nodes && Leading(s, c, i, t, full) && full != [] && full[|full| - 1].term == t
    requires s.nodes[i].raft.commitIndex < |full| && c.HasQuorum(q) && i in q && q <= s.nodes.Keys
    requires forall p :: p in q && p != i ==> p in s.nodes[i].raft.matchIndex && s.nodes[i].raft.matchIndex[p] == |full|
    requires w in s.nodes[i].engine.waiters && w.term == t && w.index <= |full|
    ensures var s' := Next(s, LeaderTick(i));
            && w in s'.h.written && i in s'.nodes && s'.nodes[i].raft.commitIndex == |full|
            && s'.nodes[i].raft.role == Leader && s'.nodes[i].raft.Term() == t
  {
    var n := s.nodes[i];
    LeadingFacts(s, c, i, t, full);
    FormedAt(s, c, i);
    assert q <= c.All().Keys;
    Stepped(s, c, LeaderTick(i));
    hide Inv, Formed, Next, Configuration.All, Represents, Configuration.HasQuorum;
    CommitsAll(n.raft, n.log, full, q);
    if w !in s.h.written {
      WriteAnsweredExactlyWhen(s.h, i, n, w);
    }
    AdvancedOnly(n.raft, n.log);
    hide Raft.AdvanceCommitIndex;
  }

  lemma AdvancedOnly(r: Raft, log: LogState)
    requires r.config.voters != map[]
    ensures var n := r.AdvanceCommitIndex(log, r.Term());
            n == r.(commitIndex := n.commitIndex)
  {
  }

  // ---- A write, from anywhere ----

  /** A client's write at the end of the leader's log. */
  lemma Logs(s: State, c: Configuration, i: int, t: int, full: Log, cmd: Command)
    requires i in s.nodes && Leading(s, c, i, t, full) && s.nodes[i].log.Aligned()
    ensures var n, s' := s.nodes[i], Next(s, ClientWrite(i, cmd, true));
            && i in s'.nodes && Leading(s', c, i, t, full + [LogEntry(|full| + 1, t, cmd)]) && OthersKept(s, s', i)
            && s'.nodes[i].raft == n.raft && Waiter(|full| + 1, t, cmd) in s'.nodes[i].engine.waiters
  {
    hide Inv, Formed, Next, Configuration.Peers, Configuration.All, Represents;
    var n := s.nodes[i];
    LeadingFacts(s, c, i, t, full);
    FormedAt(s, c, i);
    WriteLogged(s.h, i, n, full, cmd);
    StillLeading(s, c, i, t, full, ClientWrite(i, cmd, true));
    Stepped(s, c, ClientWrite(i, cmd, true));
    var e := Propose(s.h, i, n, cmd, true);
    StillFormed(s, c, i, e);
    AppendKeepsBase(n.log, cmd, t);
    hide LogState.AppendLeader;
  }

  /** A leader just elected, with nothing compacted, in a position to serve. */
  lemma ReadyToServe(s: State, s': State, c: Configuration, i: int, q: set<int>)
    requires Inv(s') && s'.config == c && i in s.nodes && q <= s.nodes.Keys && Elected(s, s', c, i, q)
    requires s.nodes[i].log.lastIncludedIndex == 0
    ensures i in s'.h.full && Leading(s', c, i, s'.nodes[i].raft.Term(), s'.h.full[i])
    ensures forall p :: p in s'.nodes[i].raft.nextIndex ==> s'.nodes[i].raft.nextIndex[p] == |s'.h.full[i]| + 1
  {
    hide HistoryOk, NodeOk, MsgOk, Configuration.Peers, Configuration.All, LogState.LastIndex, LogState.LastTerm;
    FormedAt(s', c, i);
    var t, full := s'.nodes[i].raft.Term(), s'.h.full[i];
    assert Leading(s', c, i, t, full);
    LeadingFacts(s', c, i, t, full);
  }

  lemma AllReachable(s: State, c: Configuration, i: int, t: int, full: Log, q: set<int>)
    requires i in s.nodes && Leading(s, c, i, t, full) && q <= s.nodes.Keys && q - {i} <= c.Peers(i).Keys
    requires forall p :: p in s.nodes[i].raft.nextIndex ==> s.nodes[i].raft.nextIndex[p] == |full|
    requires forall v :: v in q ==> s.nodes[v].raft.Term() <= t
    requires forall v :: v in q && v != i ==> s.nodes[v].log.lastIncludedIndex < |full|
    ensures forall v :: v in q - {i} ==> Reachable(s, i, t, full, v)
  {
    hide Inv, Formed, Configuration.Peers;
  }

  lemma BoundariesBelow(s: State, c: Configuration, i: int, t: int, full: Log, q: set<int>)
    requires i in s.nodes && Leading(s, c, i, t, full) && q <= s.nodes.Keys
    requires forall v :: v in q ==> s.nodes[v].raft.Term() <= t
    ensures forall v :: v in q ==> s.nodes[v].log.lastIncludedIndex <= |full|
  {
    hide Leading;
    forall v | v in q
      ensures s.nodes[v].log.lastIncludedIndex <= |full|
    {
      FollowerFacts(s, c, i, t, full, v);
    }
  }

  /** A leader in a position to serve commits a write on any quorum that is not ahead of its term. */
  lemma Serves(s: State, c: Configuration, i: int, t: int, full: Log, q: set<int>, cmd: Command)
    returns (steps: seq<Step>)
    requires i in s.nodes && Leading(s, c, i, t, full) && s.nodes[i].log.Aligned()
    requires i in q && q <= s.nodes.Keys && c.HasQuorum(q) && (forall v :: v in q ==> s.nodes[v].raft.Term() <= t)
    requires forall p :: p in s.nodes[i].raft.nextIndex ==> s.nodes[i].raft.nextIndex[p] == |full| + 1
    ensures var s' := After(s, steps);
            && Waiter(|full| + 1, t, cmd) in s'.h.written && i in s'.nodes
            && s'.nodes[i].raft.role == Leader && s'.nodes[i].raft.Term() == t
            && s'.nodes[i].raft.commitIndex == |full| + 1
  {
    hide Leading, Next, Configuration.Peers, Configuration.HasQuorum, After, Represents, LogState.LastIndex, Reachable;
    var longer := full + [LogEntry(|full| + 1, t, cmd)];
    var write, tick, w := ClientWrite(i, cmd, true), LeaderTick(i), Waiter(|full| + 1, t, cmd);
    LeadingFacts(s, c, i, t, full);
    PeersOfQuorum(s, c, i, t, full, q);
    BoundariesBelow(s, c, i, t, full, q);
    Logs(s, c, i, t, full, cmd);
    var s1 := Next(s, write);
    AllReachable(s1, c, i, t, longer, q);
    var synced, s2 := SyncAll(s1, c, i, t, longer, q - {i});
    SyncedKeys(s1, s2, c, i, t, longer, q);
    MatchedAll(s1.nodes[i], s2.nodes[i], q, i, |longer|);
    Ticks(s2, c, i, t, longer, q, w);
    steps := [write] + synced + [tick];
    AfterOne(s, write);
    AfterBoth(s, [write], synced);
    AfterBoth(s, [write] + synced, [tick]);
    AfterOne(s2, tick);
  }

  lemma PeersOfQuorum(s: State, c: Configuration, i: int, t: int, full: Log, q: set<int>)
    requires i in s.nodes && Leading(s, c, i, t, full) && i in q && q <= s.nodes.Keys
    ensures q - {i} <= c.Peers(i).Keys
  {
    hide Inv, Formed, Configuration.Peers;
    OthersArePeers(s, c, i, q);
  }

  lemma MatchedAll(n: Node, n': Node, q: set<int>, i: int, last: int)
    requires AllBooked(n, n', q - {i}, last)
    ensures forall p :: p in q && p != i ==> p in n'.raft.matchIndex && n'.raft.matchIndex[p] == last
    ensures n'.raft.commitIndex == n.raft.commitIndex && n'.engine.waiters == n.engine.waiters
  {
    assert forall p :: p in q && p != i ==> p in q - {i};
  }

  lemma SyncedKeys(s: State, s': State, c: Configuration, i: int, t: int, full: Log, q: set<int>)
    requires i in s.nodes && Leading(s, c, i, t, full) && i in s'.nodes && Leading(s', c, i, t, full)
    requires q <= s.nodes.Keys
    ensures q <= s'.nodes.Keys
  {
    hide Inv;
  }

  /** From every reachable state, for every member whose log is not behind those of a quorum and not
      compacted: some continuation elects it and has any client's write committed and acknowledged, whatever
      the others' logs hold. */
  lemma WriteCompletes(c: Configuration, ttl: int, run: Run, a: nat, i: int, q: set<int>, cmd: Command)
    returns (steps: seq<Step>, k: int, t: int)
    requires run.Of(c, ttl) && a < |run.states|
    requires var s := run.states[a];
             && i in q && q <= s.nodes.Keys && c.HasQuorum(q) && (q == {i} ==> c.Peers(i) == map[])
             && s.nodes[i].log.lastIncludedIndex == 0
             && (forall v :: v in q ==> MayFollow(s.nodes[v], s.nodes[i]))
    ensures var s, s' := run.states[a], After(run.states[a], steps);
            && Waiter(k, t, cmd) in s'.h.written && (forall v :: v in q ==> s.nodes[v].raft.Term() < t)
            && i in s'.nodes && s'.nodes[i].raft.role == Leader && s'.nodes[i].raft.Term() == t
            && s'.nodes[i].raft.commitIndex == k
  {
    hide Run.Of, HistoryOk, NodeOk, MsgOk, Configuration.HasQuorum, Configuration.Peers, Configuration.All, MayFollow,
         Next, After, Formed, Leads;
    RunOk(c, ttl, run, a);
    var s := run.states[a];
    FormedByInv(s);
    var won := Electable(s, c, i, q);
    var longer := TakenOn(c, ttl, run, a, won);
    RunOk(c, ttl, longer, a + |won|);
    var s1 := After(s, won);
    ReadyToServe(s, s1, c, i, q);
    t, k := s1.nodes[i].raft.Term(), |s1.h.full[i]| + 1;
    var served := Serves(s1, c, i, t, s1.h.full[i], q, cmd);
    steps := won + served;
    AfterBoth(s, won, served);
  }
}
