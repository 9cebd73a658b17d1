/** What every reachable state satisfies: conditions on the ledger, on each member and on each
    message ever sent. All of them survive any growth of the ledger by somebody else's step. */
module Invariant {
  import opened Membership
  import opened HeadCount
  import opened Store
  import opened RaftLog
  import opened Consensus
  import opened Ledger
  import opened Cluster

  // ---- The ledger ----

  ghost predicate SeenOk(votes: Votes, bids: Bids, seen: map<int, int>) {
    && (forall v, t :: (v, t) in votes ==> v in seen && t <= seen[v])
    && (forall x, t :: (x, t) in bids ==> x in seen && t <= seen[x] && x > 0)
  }

  /** A read pinned its index above everything committed up to its own term; anything committed
      in a later term was committed by a leader whose electors had already left the read's term. */
  ghost predicate ReadOk(reigns: Reigns, commits: Commits, seen: map<int, int>, read: Read) {
    && read.term in reigns && reigns[read.term].leader == read.leader && read.barrier >= 0 && read.readIndex >= 0
    && (forall v :: v in read.terms ==> v in seen && read.terms[v] <= seen[v])
    && (forall v :: v in seen ==> v in read.terms)
    && (forall t, k :: (t, k) in read.commits ==>
          && (t, k) in commits
          && (t <= read.term && read.floored ==> k <= read.readIndex)
          && (t > read.term ==> t in reigns && forall v :: v in reigns[t].electors
                                                           ==> v in read.terms && read.terms[v] >= t))
  }

  ghost predicate ReadsOk(reigns: Reigns, commits: Commits, seen: map<int, int>, admitted: set<Read>) {
    forall read :: read in admitted ==> ReadOk(reigns, commits, seen, read)
  }

  /** A released read was confirmed by servers that, on its admission, had not left its term. */
  ghost predicate ReleasedOk(c: Configuration, admitted: set<Read>, released: map<Read, set<int>>) {
    forall read :: read in released ==>
      && read in admitted
      && (HeadsSuffice(c, read.leader) ==> c.HasQuorum(released[read]))
      && (forall v :: v in released[read] ==> v in read.terms && read.terms[v] <= read.term)
  }

  predicate EntryAt(reigns: Reigns, w: Waiter) {
    && w.term in reigns && 1 <= w.index <= |reigns[w.term].log|
    && reigns[w.term].log[w.index - 1] == LogEntry(w.index, w.term, w.command)
  }

  /** A write answered nil is the entry it says it is, and committed. */
  ghost predicate WrittenOk(reigns: Reigns, commits: Commits, written: set<Waiter>) {
    forall w :: w in written
        ==> EntryAt(reigns, w) && CommittedBy(reigns, commits, Stored(reigns, w.term, w.index), w.term)
  }

  /** Everybody in the quorum but the candidate said yes to its poll for term t. */
  predicate SaidYes(grants: set<(int, int, int)>, candidate: int, t: int, quorum: set<int>) {
    forall v :: v in quorum ==> v == candidate || (v, candidate, t) in grants
  }

  /** A term was campaigned for only after a quorum said yes to the poll for it. */
  ghost predicate PollsOk(c: Configuration, grants: set<(int, int, int)>, polls: map<int, Poll>) {
    forall t :: t in polls ==> c.HasQuorum(polls[t].quorum) && SaidYes(grants, polls[t].candidate, t, polls[t].quorum)
  }

  ghost predicate HistoryOk(c: Configuration, h: History) {
    && LedgerOk(c, h.votes, h.bids, h.reigns, h.acks, h.commits)
    && SeenOk(h.votes, h.bids, h.seen)
    && ReadsOk(h.reigns, h.commits, h.seen, h.admitted)
    && ReleasedOk(c, h.admitted, h.released)
    && WrittenOk(h.reigns, h.commits, h.written)
    && PollsOk(c, h.grants, h.polls)
  }

  // ---- A member ----

  ghost predicate LogOk(reigns: Reigns, full: Log, log: LogState, term: int) {
    Represents(log, full) && Grounded(reigns, full) && TermsBelow(full, term + 1)
  }

  /** Neither the record in memory nor the one on disk can contradict a vote that was granted. */
  ghost predicate BallotOk(votes: Votes, bids: Bids, i: int, mem: Persistent, disk: Persistent) {
    && 0 <= mem.term <= disk.term
    && (mem.term == disk.term && mem.votedFor != NOBODY ==> disk.votedFor == mem.votedFor)
    && (forall t :: (i, t) in votes ==>
          && t <= mem.term && (t == mem.term ==> mem.votedFor == votes[(i, t)].candidate)
          && (t == disk.term ==> disk.votedFor == votes[(i, t)].candidate))
    && (forall t :: (i, t) in bids ==> t <= mem.term)
  }

  /** As of term `term`. */
  ghost predicate StillHolds(reigns: Reigns, t: int, k: int, term: int, full: Log) {
    Carries(reigns, t, k, term + 1, full)
  }

  /** What this member acknowledged it still has, unless a later leader was elected without it. */
  ghost predicate KeepsOk(reigns: Reigns, acks: Acks, i: int, term: int, full: Log) {
    && (forall t :: (i, t) in acks ==> t <= term)
    && (forall t, k :: (i, t) in acks && 0 <= k <= acks[(i, t)] ==> StillHolds(reigns, t, k, term, full))
  }

  ghost predicate CandidateOk(votes: Votes, bids: Bids, reigns: Reigns, i: int, term: int, votesFrom: set<int>,
                              full: Log) {
    && (i, term) in bids && bids[(i, term)] == full
    && (term in reigns ==> reigns[term].leader != i)
    && (forall v :: v in votesFrom ==> (v, term) in votes && votes[(v, term)].candidate == i)
  }

  ghost predicate MatchOk(acks: Acks, i: int, term: int, matchIndex: map<int, int>) {
    forall p :: p in matchIndex
        ==> p != i && (matchIndex[p] > 0 ==> (p, term) in acks && matchIndex[p] <= acks[(p, term)])
  }

  ghost predicate LeaderOk(reigns: Reigns, acks: Acks, commits: Commits, i: int, term: int, full: Log,
                           matchIndex: map<int, int>, commitIndex: int) {
    && term in reigns && reigns[term].leader == i && reigns[term].log == full
    && MatchOk(acks, i, term, matchIndex)
    && (forall k :: (term, k) in commits ==> k <= commitIndex)
  }

  /** An acknowledgement of round r counts as evidence for the reads whose barrier lies below r:
      the sender had not left the term when they were admitted. */
  ghost predicate Evidence(reigns: Reigns, admitted: set<Read>, t: int, p: int, r: int) {
    && t in reigns && r <= reigns[t].rounds
    && (forall read :: read in admitted && read.term == t && read.barrier < r ==> p in read.terms && read.terms[p] <= t)
  }

  ghost predicate RoundsOk(c: Configuration, reigns: Reigns, admitted: set<Read>, i: int, term: int, e: Engine) {
    && term in reigns && e.roundSeq == reigns[term].rounds
    && (e.noopIndex == 0 || e.noopIndex == |reigns[term].init| + 1)
    && (forall p :: p in e.lastAck
                    ==> p in c.Peers(i) && (e.lastAck[p] > 0 ==> Evidence(reigns, admitted, term, p, e.lastAck[p])))
    && e.roundSeq >= 0
  }

  ghost predicate CommitOk(reigns: Reigns, commits: Commits, full: Log, term: int, base: int, applied: int,
                           commitIndex: int) {
    && 0 <= base <= applied <= commitIndex <= |full|
    && CommittedBy(reigns, commits, full[..commitIndex], term)
  }

  /** The machine and the snapshot are exactly what the complete log says they are. */
  ghost predicate MachineOk(ttl: int, full: Log, base: int, applied: int, machine: Machine,
                            snapshot: Option<Snapshot>) {
    && 0 <= base <= applied <= |full|
    && machine == Fold(ttl, full[..applied])
    && (base == 0 ==> snapshot == None)
    && (base > 0 ==> snapshot == Some(Snapshot(base, TermOf(full, base), Fold(ttl, full[..base]))))
  }

  ghost predicate ClientsOk(reigns: Reigns, admitted: set<Read>, i: int, waiters: set<Waiter>, pending: set<Read>) {
    && (forall w :: w in waiters ==> EntryAt(reigns, w))
    && pending <= admitted && (forall read :: read in pending ==> read.leader == i)
  }

  predicate TermPolled(polls: map<int, Poll>, t: int) {
    t == 0 || t in polls
  }

  ghost predicate PollingOk(grants: set<(int, int, int)>, polls: map<int, Poll>, i: int, term: int, diskTerm: int,
                            preVoteTerm: int, preVotes: set<int>) {
    && TermPolled(polls, term) && TermPolled(polls, diskTerm)
    && preVoteTerm <= term + 1
    && (preVoteTerm != 0 ==> forall v :: v in preVotes ==> v == i || (v, i, preVoteTerm) in grants)
  }

  ghost predicate NodeOk(c: Configuration, ttl: int, h: History, i: int, n: Node) {
    var r := n.raft;
    && i in h.full && i in h.seen && h.seen[i] == r.Term() && r.id == i && i > 0 && r.config == c && i in c.All()
    && LogOk(h.reigns, h.full[i], n.log, r.Term())
    && BallotOk(h.votes, h.bids, i, r.persistent, r.disk)
    && KeepsOk(h.reigns, h.acks, i, r.Term(), h.full[i])
    && (r.role == Candidate ==> CandidateOk(h.votes, h.bids, h.reigns, i, r.Term(), r.votesFrom, h.full[i]))
    && (r.role == Leader ==> LeaderOk(h.reigns, h.acks, h.commits, i, r.Term(), h.full[i], r.matchIndex, r.commitIndex))
    && (r.role == Leader ==> RoundsOk(c, h.reigns, h.admitted, i, r.Term(), n.engine))
    && CommitOk(h.reigns, h.commits, h.full[i], r.Term(), n.log.lastIncludedIndex, r.lastApplied, r.commitIndex)
    && MachineOk(ttl, h.full[i], n.log.lastIncludedIndex, r.lastApplied, n.machine, n.snapshot)
    && ClientsOk(h.reigns, h.admitted, i, n.engine.waiters, n.engine.pending)
    && PollingOk(h.grants, h.polls, i, r.Term(), r.disk.term, n.engine.preVoteTerm, n.engine.preVotes)
    && n.engine.roundSeq >= 0
  }

  // ---- A message ----

  ghost predicate VoteReqOk(bids: Bids, polls: map<int, Poll>, to: int, req: VoteRequest) {
    && to != req.candidateID && (req.candidateID, req.term) in bids && req.term in polls
    && req.lastLogIndex == |bids[(req.candidateID, req.term)]|
    && req.lastLogTerm == TermOf(bids[(req.candidateID, req.term)], req.lastLogIndex)
  }

  /** Either the batch is a stretch of the sender's log, or the sender could not resolve its start. */
  ghost predicate BatchOk(log: Log, req: AppendRequest) {
    && req.prevLogIndex >= 0
    && ((&& req.prevLogIndex + |req.entries| <= |log|
         && req.entries == log[req.prevLogIndex..req.prevLogIndex + |req.entries|]
         && req.prevLogTerm == TermOf(log, req.prevLogIndex))
        || (req.entries == [] && req.prevLogTerm == 0 && req.prevLogIndex > 0))
  }

  ghost predicate FromLeader(reigns: Reigns, polls: map<int, Poll>, to: int, term: int, leader: int, round: int) {
    && term in reigns && reigns[term].leader == leader && to != leader && round <= reigns[term].rounds && term in polls
  }

  ghost predicate AppendReqOk(reigns: Reigns, commits: Commits, req: AppendRequest)
    requires req.term in reigns
  {
    var log := reigns[req.term].log;
    && BatchOk(log, req)
    && 0 <= req.leaderCommit <= |log| && CommittedBy(reigns, commits, log[..req.leaderCommit], req.term)
  }

  ghost predicate SnapReqOk(ttl: int, reigns: Reigns, commits: Commits, term: int, s: Snapshot)
    requires term in reigns
  {
    var log := reigns[term].log;
    && 1 <= s.index <= |log| && s.term == TermOf(log, s.index) && s.state == Fold(ttl, log[..s.index])
    && CommittedBy(reigns, commits, log[..s.index], term)
  }

  ghost predicate ReplyOk(reigns: Reigns, acks: Acks, admitted: set<Read>, polls: map<int, Poll>,
                          from: int, sent: int, round: int, term: int, success: bool, index: int) {
    && (success ==> term == sent && (from, sent) in acks && index <= acks[(from, sent)])
    && (term == sent ==> Evidence(reigns, admitted, sent, from, round))
    && TermPolled(polls, term)
  }

  ghost predicate MsgOk(ttl: int, h: History, m: Msg) {
    match m
    case PreVoteReq(to, req) => true
    case PreVoteResp(to, from, poll, term, granted) => TermPolled(h.polls, term)
        && (granted ==> (from, to, poll) in h.grants)
    case VoteReq(to, req) => VoteReqOk(h.bids, h.polls, to, req)
    case VoteResp(to, from, election, term, granted) =>
      TermPolled(h.polls, term)
          && (granted ==> (from, election) in h.votes && h.votes[(from, election)].candidate == to)
    case AppendReq(to, round, req) =>
      FromLeader(h.reigns, h.polls, to, req.term, req.leaderID, round) && AppendReqOk(h.reigns, h.commits, req)
    case AppendResp(to, from, sent, round, resp) =>
      ReplyOk(h.reigns, h.acks, h.admitted, h.polls, from, sent, round, resp.term, resp.success, resp.matchIndex)
    case SnapReq(to, round, req) =>
      FromLeader(h.reigns, h.polls, to, req.term, req.leaderID, round)
          && SnapReqOk(ttl, h.reigns, h.commits, req.term, req.snapshot)
    case SnapResp(to, from, sent, round, index, resp) =>
      ReplyOk(h.reigns, h.acks, h.admitted, h.polls, from, sent, round, resp.term, resp.success, index)
  }

  // ---- Growth by one member's step ----

  ghost predicate OthersSame(a: map<int, Log>, b: map<int, Log>, i: int) {
    b.Keys == a.Keys && (forall j :: j in a && j != i ==> b[j] == a[j])
  }

  ghost predicate SeenGrows(a: map<int, int>, b: map<int, int>, i: int) {
    b.Keys == a.Keys && (forall j :: j in a ==> a[j] <= b[j]) && (forall j :: j in a && j != i ==> b[j] == a[j])
  }

  ghost predicate VotesGrow(a: Votes, b: Votes, i: int) {
    && (forall k :: k in a ==> k in b && b[k] == a[k])
    && (forall v, t :: (v, t) in b && v != i ==> (v, t) in a)
  }

  ghost predicate BidsGrow(a: Bids, b: Bids, i: int) {
    && (forall k :: k in a ==> k in b && b[k] == a[k])
    && (forall v, t :: (v, t) in b && v != i ==> (v, t) in a)
  }

  ghost predicate AcksGrow(a: Acks, b: Acks, i: int) {
    && (forall k :: k in a ==> k in b && a[k] <= b[k])
    && (forall v, t :: (v, t) in b && v != i ==> (v, t) in a && b[(v, t)] == a[(v, t)])
  }

  /** Only i's own reigns change or begin. */
  ghost predicate ReignsOf(a: Reigns, b: Reigns, i: int) {
    forall t :: t in b && b[t].leader != i ==> t in a && b[t] == a[t]
  }

  ghost predicate CommitsGrow(a: Commits, b: Commits, reigns: Reigns, i: int) {
    && (forall k :: k in a ==> k in b)
    && (forall t, k :: (t, k) in b && (t, k) !in a ==> t in reigns && reigns[t].leader == i)
  }

  /** A new read counts no round that has already been claimed. */
  ghost predicate AdmittedGrows(a: set<Read>, b: set<Read>, reigns: Reigns) {
    && a <= b
    && (forall read :: read in b && read !in a ==> read.term in reigns ==> read.barrier >= reigns[read.term].rounds)
  }

  ghost predicate Extends(h: History, h': History, i: int) {
    && OthersSame(h.full, h'.full, i) && SeenGrows(h.seen, h'.seen, i)
    && VotesGrow(h.votes, h'.votes, i) && BidsGrow(h.bids, h'.bids, i)
    && ReignsGrow(h.reigns, h'.reigns) && ReignsOf(h.reigns, h'.reigns, i)
    && AcksGrow(h.acks, h'.acks, i) && CommitsGrow(h.commits, h'.commits, h'.reigns, i)
    && AdmittedGrows(h.admitted, h'.admitted, h.reigns)
    && h.written <= h'.written && h.grants <= h'.grants
    && (forall read :: read in h.released ==> read in h'.released)
    && (forall t :: t in h.polls ==> t in h'.polls)
  }

  lemma ExtendsSelf(h: History, i: int)
    ensures Extends(h, h, i)
  {
  }

  /** A step of member i is sound: the ledger grows and stays right, i stays right, and what it sent is right. */
  ghost predicate StepOk(c: Configuration, ttl: int, h: History, i: int, e: Effect) {
    && Extends(h, e.h, i) && HistoryOk(c, e.h) && NodeOk(c, ttl, e.h, i, e.node)
    && (forall m :: m in e.out ==> MsgOk(ttl, e.h, m))
  }

  // ---- Everyone else is unaffected ----

  lemma CommittedStays(c: Configuration, a: Reigns, b: Reigns, acks: Acks, cs: Commits, ds: Commits, log: Log,
                       bound: int)
    requires CommitsOk(c, a, acks, cs) && ReignsGrow(a, b) && (forall k :: k in cs ==> k in ds)
    requires CommittedBy(a, cs, log, bound)
    ensures CommittedBy(b, ds, log, bound)
  {
    CommittedByGrows(a, b, cs, ds, log, bound, bound);
  }

  lemma KeepsStays(a: Reigns, b: Reigns, acks: Acks, acks': Acks, j: int, term: int, full: Log)
    requires KeepsOk(a, acks, j, term, full) && ReignsGrow(a, b) && AcksOk(a, acks)
    requires forall t :: (j, t) in acks' ==> (j, t) in acks && acks'[(j, t)] == acks[(j, t)]
    ensures KeepsOk(b, acks', j, term, full)
  {
    forall t, k | (j, t) in acks' && 0 <= k <= acks'[(j, t)]
      ensures StillHolds(b, t, k, term, full)
    {
      assert StillHolds(a, t, k, term, full);
      CarriesGrows(a, b, t, k, term + 1, full, full);
    }
  }

  lemma EvidenceStays(a: Reigns, b: Reigns, adm: set<Read>, adm': set<Read>, t: int, p: int, r: int)
    requires Evidence(a, adm, t, p, r) && ReignsGrow(a, b) && AdmittedGrows(adm, adm', a)
    ensures Evidence(b, adm', t, p, r)
  {
  }

  lemma RoundsStay(c: Configuration, a: Reigns, b: Reigns, adm: set<Read>, adm': set<Read>, j: int, term: int,
                   e: Engine)
    requires RoundsOk(c, a, adm, j, term, e) && ReignsGrow(a, b) && term in a && term in b && b[term] == a[term]
             && AdmittedGrows(adm, adm', a)
    ensures RoundsOk(c, b, adm', j, term, e)
  {
    forall p | p in e.lastAck && e.lastAck[p] > 0
      ensures Evidence(b, adm', term, p, e.lastAck[p])
    {
      EvidenceStays(a, b, adm, adm', term, p, e.lastAck[p]);
    }
  }

  lemma ClientsStay(a: Reigns, b: Reigns, adm: set<Read>, adm': set<Read>, j: int, waiters: set<Waiter>,
                    pending: set<Read>)
    requires ClientsOk(a, adm, j, waiters, pending) && ReignsGrow(a, b) && adm <= adm'
    ensures ClientsOk(b, adm', j, waiters, pending)
  {
    forall w | w in waiters
      ensures EntryAt(b, w)
    {
      assert EntryAt(a, w);
    }
  }

  lemma BallotStays(votes: Votes, votes': Votes, bids: Bids, bids': Bids, i: int, j: int, mem: Persistent,
                    disk: Persistent)
    requires BallotOk(votes, bids, j, mem, disk) && VotesGrow(votes, votes', i) && BidsGrow(bids, bids', i) && j != i
    ensures BallotOk(votes', bids', j, mem, disk)
  {
  }

  lemma CandidateStays(h: History, h': History, i: int, j: int, term: int, votesFrom: set<int>, full: Log)
    requires CandidateOk(h.votes, h.bids, h.reigns, j, term, votesFrom, full)
    requires VotesGrow(h.votes, h'.votes, i) && BidsGrow(h.bids, h'.bids, i) && ReignsOf(h.reigns, h'.reigns, i)
             && j != i
    ensures CandidateOk(h'.votes, h'.bids, h'.reigns, j, term, votesFrom, full)
  {
  }

  lemma LeaderStays(h: History, h': History, i: int, j: int, term: int, full: Log, matchIndex: map<int, int>,
                    commitIndex: int)
    requires LeaderOk(h.reigns, h.acks, h.commits, j, term, full, matchIndex, commitIndex) && j != i
    requires ReignsGrow(h.reigns, h'.reigns) && ReignsOf(h.reigns, h'.reigns, i)
    requires AcksGrow(h.acks, h'.acks, i) && CommitsGrow(h.commits, h'.commits, h'.reigns, i)
    ensures LeaderOk(h'.reigns, h'.acks, h'.commits, j, term, full, matchIndex, commitIndex)
    ensures term in h.reigns && term in h'.reigns && h'.reigns[term] == h.reigns[term]
  {
    assert h'.reigns[term].leader == j;
  }

  lemma LogStays(a: Reigns, b: Reigns, full: Log, log: LogState, term: int)
    requires LogOk(a, full, log, term) && ReignsGrow(a, b)
    ensures LogOk(b, full, log, term)
  {
    GroundedGrows(a, b, full);
  }

  lemma CommitStays(c: Configuration, h: History, h': History, full: Log, term: int, base: int, applied: int,
                    commitIndex: int)
    requires CommitOk(h.reigns, h.commits, full, term, base, applied, commitIndex)
             && CommitsOk(c, h.reigns, h.acks, h.commits)
    requires ReignsGrow(h.reigns, h'.reigns) && (forall k :: k in h.commits ==> k in h'.commits)
    ensures CommitOk(h'.reigns, h'.commits, full, term, base, applied, commitIndex)
  {
    CommittedStays(c, h.reigns, h'.reigns, h.acks, h.commits, h'.commits, full[..commitIndex], term);
  }

  lemma NodeStays(c: Configuration, ttl: int, h: History, h': History, i: int, j: int, n: Node)
    requires NodeOk(c, ttl, h, j, n) && HistoryOk(c, h) && Extends(h, h', i) && j != i
    ensures NodeOk(c, ttl, h', j, n)
  {
    hide LogOk, BallotOk, KeepsOk, CandidateOk, LeaderOk, RoundsOk, CommitOk, MachineOk, ClientsOk;
    hide VotesGrow, BidsGrow, ReignsGrow, ReignsOf, AdmittedGrows, ReignsOk, BidsOk, VotesOk, PromisesOk, AcksOk,
         CommitsOk, SeenOk, ReadsOk, WrittenOk, ReleasedOk, PollsOk;
    var r := n.raft;
    var full := h.full[j];
    LogStays(h.reigns, h'.reigns, full, n.log, r.Term());
    BallotStays(h.votes, h'.votes, h.bids, h'.bids, i, j, r.persistent, r.disk);
    KeepsStays(h.reigns, h'.reigns, h.acks, h'.acks, j, r.Term(), full);
    CommitStays(c, h, h', full, r.Term(), n.log.lastIncludedIndex, r.lastApplied, r.commitIndex);
    assert h.admitted <= h'.admitted by {
      AdmittedSubset(h.admitted, h'.admitted, h.reigns);
    }
    ClientsStay(h.reigns, h'.reigns, h.admitted, h'.admitted, j, n.engine.waiters, n.engine.pending);
    if r.role == Candidate {
      CandidateStays(h, h', i, j, r.Term(), r.votesFrom, full);
    }
    if r.role == Leader {
      LeaderInReigns(h.reigns, h.acks, h.commits, j, r.Term(), full, r.matchIndex, r.commitIndex);
      LeaderStays(h, h', i, j, r.Term(), full, r.matchIndex, r.commitIndex);
      RoundsStay(c, h.reigns, h'.reigns, h.admitted, h'.admitted, j, r.Term(), n.engine);
    }
  }

  lemma AdmittedSubset(a: set<Read>, b: set<Read>, reigns: Reigns)
    requires AdmittedGrows(a, b, reigns)
    ensures a <= b
  {
  }

  lemma LeaderInReigns(reigns: Reigns, acks: Acks, commits: Commits, i: int, term: int, full: Log, matchIndex: map<int,
                       int>, commitIndex: int)
    requires LeaderOk(reigns, acks, commits, i, term, full, matchIndex, commitIndex)
    ensures term in reigns
  {
  }

  lemma MsgStays(c: Configuration, ttl: int, h: History, h': History, i: int, m: Msg)
    requires MsgOk(ttl, h, m) && HistoryOk(c, h) && Extends(h, h', i)
    ensures MsgOk(ttl, h', m)
  {
    hide ReignsOk, BidsOk, VotesOk, AcksOk, PromisesOk, CommitsOk, SeenOk, ReadsOk, ReleasedOk, WrittenOk, PollsOk;
    hide OthersSame, SeenGrows, ReignsOf, AdmittedGrows, AppendReqOk, SnapReqOk, Evidence;
    match m
    case AppendReq(to, round, req) =>
      AppendReqStays(c, h.reigns, h'.reigns, h.acks, h.commits, h'.commits, req);
    case SnapReq(to, round, req) =>
      SnapReqStays(c, ttl, h.reigns, h'.reigns, h.acks, h.commits, h'.commits, req);
    case AppendResp(to, from, sent, round, resp) =>
      if resp.term == sent {
        EvidenceStays(h.reigns, h'.reigns, h.admitted, h'.admitted, sent, from, round);
      }
    case SnapResp(to, from, sent, round, index, resp) =>
      if resp.term == sent {
        EvidenceStays(h.reigns, h'.reigns, h.admitted, h'.admitted, sent, from, round);
      }
    case PreVoteReq(to, req) =>
    case PreVoteResp(to, from, poll, term, granted) =>
    case VoteReq(to, req) =>
    case VoteResp(to, from, election, term, granted) =>
  }

  lemma AppendReqStays(c: Configuration, a: Reigns, b: Reigns, acks: Acks, cs: Commits, ds: Commits, req: AppendRequest)
    requires req.term in a && AppendReqOk(a, cs, req)
    requires CommitsOk(c, a, acks, cs) && ReignsGrow(a, b) && (forall k :: k in cs ==> k in ds)
    ensures req.term in b && AppendReqOk(b, ds, req)
  {
    BatchStays(a[req.term].log, b[req.term].log, req);
    CommittedStays(c, a, b, acks, cs, ds, a[req.term].log[..req.leaderCommit], req.term);
    assert b[req.term].log[..req.leaderCommit] == a[req.term].log[..req.leaderCommit];
  }

  lemma SnapReqStays(c: Configuration, ttl: int, a: Reigns, b: Reigns, acks: Acks, cs: Commits, ds: Commits,
                     req: SnapshotRequest)
    requires req.term in a && SnapReqOk(ttl, a, cs, req.term, req.snapshot)
    requires CommitsOk(c, a, acks, cs) && ReignsGrow(a, b) && (forall k :: k in cs ==> k in ds)
    ensures req.term in b && SnapReqOk(ttl, b, ds, req.term, req.snapshot)
  {
    CommittedStays(c, a, b, acks, cs, ds, a[req.term].log[..req.snapshot.index], req.term);
    assert b[req.term].log[..req.snapshot.index] == a[req.term].log[..req.snapshot.index];
  }

  lemma BatchStays(a: Log, b: Log, req: AppendRequest)
    requires BatchOk(a, req) && a <= b
    ensures BatchOk(b, req)
  {
    var prev := req.prevLogIndex;
    if prev + |req.entries| <= |a| && req.entries == a[prev..prev + |req.entries|]
        && req.prevLogTerm == TermOf(a, prev) {
      assert b[prev..prev + |req.entries|] == a[prev..prev + |req.entries|];
    }
  }
}
