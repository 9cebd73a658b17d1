/** What each decision of a member comes out as, in the numbers a caller can see: when a vote is given,
    when an election is won, what a receiver answers and adopts, what a leader commits. */
module Decisions {
  import opened Membership
  import opened Store
  import opened RaftLog
  import opened Consensus
  import opened Ledger
  import opened Cluster
  import opened LogRuns

  function Min(a: int, b: int): int {
    if a < b then a else b
  }

  // ---- Votes ----

  /** The candidate's log is not behind: a later last term, or the same and no shorter. */
  predicate NotBehind(req: VoteRequest, lastIndex: int, lastTerm: int) {
    req.lastLogTerm > lastTerm || (req.lastLogTerm == lastTerm && req.lastLogIndex >= lastIndex)
  }

  /** A vote is given exactly when the term is not behind, no live leader is known, nobody else has this
      term's vote, the candidate's log is not behind, and the vote is durable or was on record already. */
  lemma VoteGrantedExactlyWhen(r: Raft, req: VoteRequest, lastIndex: int, lastTerm: int, sticky: bool, io: Disk)
    ensures var (n, resp) := r.HandleRequestVote(req, lastIndex, lastTerm, sticky, io);
            var heard := req.term >= r.persistent.term && !(sticky && r.leaderID != 0);
            var free := req.term > r.persistent.term || r.persistent.votedFor in {-1, req.candidateID};
            && (resp.granted <==> && heard && free && NotBehind(req, lastIndex, lastTerm)
                                  && (io.Durable? || r.persistent == Persistent(req.term, req.candidateID)))
            && resp.term == n.persistent.term
            && n.persistent
               == (if resp.granted then Persistent(req.term, req.candidateID)
                   else if heard && req.term > r.persistent.term && io.Durable? then Persistent(req.term, -1)
                   else r.persistent)
            && (n.role, n.leaderID) == (if n.persistent.term > r.persistent.term then (Follower, 0)
                                        else (r.role, r.leaderID))
            && n == r.(persistent := n.persistent, disk := n.disk, role := n.role, leaderID := n.leaderID)
            && (n.persistent != r.persistent ==> n.disk == n.persistent)
  {
    if req.term > r.persistent.term {
      assert Persistent(req.term, req.candidateID) != r.persistent && Persistent(req.term, -1) != r.persistent;
    }
  }

  /** A poll says yes exactly when the term is ahead, no live leader is known and the log is not behind. */
  lemma PollYesExactlyWhen(r: Raft, req: VoteRequest, lastIndex: int, lastTerm: int, sticky: bool)
    ensures r.HandlePreVote(req, lastIndex, lastTerm, sticky)
            <==> && req.term > r.persistent.term && !(sticky && r.leaderID != 0)
                 && NotBehind(req, lastIndex, lastTerm)
  {
  }

  // ---- Elections ----

  /** The reply that completes a poll starts the campaign, and no other does: a new term, one's own vote
      and a request to every peer. */
  lemma CampaignsExactlyWhen(h: History, i: int, n: Node, m: Msg)
    requires i in h.full && m.PreVoteResp? && n.raft.id == i
    requires n.raft.role == Follower && m.poll == n.engine.preVoteTerm == n.raft.Term() + 1 && m.term <= n.raft.Term()
    ensures var e := OnPreVoteResp(h, i, n, m, Durable);
            var yes := n.engine.preVotes + {m.from};
            && (e.node.raft.role == Candidate <==> m.granted && n.raft.config.HasQuorum(yes))
            && (e.node.raft.role == Candidate ==>
                  && e.node.raft.persistent == e.node.raft.disk == Persistent(m.poll, i) && e.node.raft.votesFrom == {i}
                  && forall p :: p in n.raft.config.Peers(i) ==>
                       VoteReq(p, VoteRequest(m.poll, i, n.log.LastIndex(), n.log.LastTerm())) in e.out)
            && (m.granted && e.node.raft.role != Candidate ==>
                  e.node == n.(engine := n.engine.(preVotes := yes)))
            && (!m.granted ==> e.node == n)
  {
    hide Configuration.HasQuorum, Configuration.Peers, LogState.LastIndex, LogState.LastTerm;
    assert Persistent(n.raft.Term() + 1, i) != n.raft.persistent;
  }

  /** A timeout makes a member leader at once exactly when it has no peers. One whose own vote is a
      majority, but which has learners, polls them and waits for a reply. */
  lemma WinsAtOnceExactlyWhen(h: History, i: int, n: Node)
    requires i in h.full && n.raft.id == i && n.raft.role != Leader
    ensures var e, peers := StartPreVote(h, i, n, Durable, None), n.raft.config.Peers(i);
            && (e.node.raft.role == Leader <==> peers == map[])
            && (peers != map[] ==>
                  && e.node.raft == n.raft && e.node.log == n.log
                  && e.node.engine.preVoteTerm == n.raft.Term() + 1 && e.node.engine.preVotes == {i}
                  && forall p :: p in peers ==>
                       PreVoteReq(p, VoteRequest(n.raft.Term() + 1, i, n.log.LastIndex(), n.log.LastTerm())) in e.out)
  {
    hide Configuration.HasQuorum, Configuration.Peers, LogState.LastIndex, LogState.LastTerm, Uniform;
    assert Persistent(n.raft.Term() + 1, i) != n.raft.persistent;
  }

  /** The failing input: a lone voter with a learner that is down. */
  lemma LoneVoterWaits(h: History, n: Node, c: Configuration)
    requires 1 in h.full && n.raft.id == 1 && n.raft.role == Follower && n.raft.config == c
    requires c == Configuration(map[1 := "a"], map[], map[2 := "b"])
    ensures c.Valid() && c.HasQuorum({1})
    ensures StartPreVote(h, 1, n, Durable, None).node.raft.role == Follower
  {
    assert c.voters.Keys == {1} && c.voters.Keys * {1} == {1};
    assert 2 in c.Peers(1);
    hide StartPreVote, Configuration.Peers;
    WinsAtOnceExactlyWhen(h, 1, n);
  }

  /** The vote that completes a quorum makes the candidate leader, and no other does: a next index just
      past its log for every peer, nothing matched yet, and its no-op in the log. */
  lemma ElectedExactlyWhen(h: History, i: int, n: Node, m: Msg, cmd: Command)
    requires i in h.full && m.VoteResp? && n.raft.id == i && n.log.Aligned()
    requires n.raft.role == Candidate && m.election == n.raft.Term() && m.term <= n.raft.Term()
    ensures var e := OnVoteResp(h, i, n, m, Durable, Some(cmd));
            var voters := n.raft.votesFrom + {m.from};
            && (e.node.raft.role == Leader <==> m.granted && n.raft.config.HasQuorum(voters))
            && (e.node.raft.role == Leader ==>
                  && e.node.raft.Term() == n.raft.Term() && e.node.raft.leaderID == i
                  && e.node.log == n.log.AppendLeader(cmd, n.raft.Term())
                  && e.node.engine.noopIndex == n.log.nextIndex
                  && e.node.raft.nextIndex.Keys == e.node.raft.matchIndex.Keys == n.raft.config.Peers(i).Keys
                  && forall p :: p in n.raft.config.Peers(i) ==>
                       && e.node.raft.nextIndex[p] == n.log.LastIndex() + 1
                       && e.node.raft.matchIndex[p] == 0 == e.node.engine.lastAck[p])
            && (m.granted && e.node.raft.role != Leader ==> e.node == n.(raft := n.raft.(votesFrom := voters)))
            && (!m.granted ==> e.node == n)
  {
    hide Configuration.HasQuorum, Configuration.Peers, LogState.LastIndex, LogState.AppendLeader;
  }

  // ---- Receiving entries ----

  /** The leader behind a request is accepted: its term is not behind, and known or saved. */
  predicate Accepted(r: Raft, term: int, io: Disk) {
    term == r.persistent.term || (term > r.persistent.term && io.Durable?)
  }

  lemma AcceptIs(r: Raft, term: int, leader: int, io: Disk)
    requires term >= r.persistent.term
    ensures var (n, ok) := r.Accept(term, leader, io);
            && (ok <==> Accepted(r, term, io))
            && (ok ==> && n.role == Follower && n.leaderID == leader && n.Term() == term
                       && n.commitIndex == r.commitIndex && n.lastApplied == r.lastApplied
                       && n.persistent == if term > r.persistent.term then Persistent(term, -1) else r.persistent)
            && (!ok ==> n == r.(disk := n.disk))
  {
  }

  /** A batch is stored exactly when its leader is accepted, the log agrees with it at the previous index
      and the disk takes what is new. The commit index then follows the leader's as far as the batch
      reaches, never backwards; a batch refused leaves it alone. */
  lemma AppendAnsweredExactlyWhen(r: Raft, log: LogState, full: Log, req: AppendRequest, io: Disk, writes: nat)
    requires Represents(log, full) && log.lastIncludedIndex <= req.prevLogIndex
    requires Contiguous(req.entries, req.prevLogIndex)
    ensures var (n, log', resp) := r.HandleAppendEntries(log, req, io, writes);
            var unheld := |req.entries| - Agreeing(full, req.prevLogIndex, req.entries);
            && (resp.success <==> && Accepted(r, req.term, io)
                                  && (req.prevLogIndex > 0 ==> && req.prevLogIndex <= |full|
                                                               && TermOf(full, req.prevLogIndex) == req.prevLogTerm)
                                  && (unheld == 0 || unheld < writes))
            && (resp.success ==> resp.matchIndex == req.prevLogIndex + |req.entries|)
            && n.commitIndex == (if resp.success then Max(r.commitIndex, Min(req.leaderCommit, resp.matchIndex))
                                 else r.commitIndex)
            && resp.term == n.Term() == (if Accepted(r, req.term, io) then req.term else r.Term())
            && (Accepted(r, req.term, io) ==> n.role == Follower && n.leaderID == req.leaderID)
            && n.lastApplied == r.lastApplied
  {
    assert 0 <= log.lastIncludedIndex;
    hide AppendEntries, Represents, Agreeing, Raft.HandleAppendEntries, Meant;
    AnswerIs(r, log, req, io, writes);
    BatchRefines(log, full, req.prevLogIndex, req.prevLogTerm, req.entries, writes);
    MatchedIs(log, req.prevLogIndex, req.prevLogTerm, req.entries, writes);
  }

  /** The node's part of the answer, whatever its log makes of the batch. */
  lemma AnswerIs(r: Raft, log: LogState, req: AppendRequest, io: Disk, writes: nat)
    ensures var (n, log', resp) := r.HandleAppendEntries(log, req, io, writes);
            var a, ok := AppendEntries(log, req.prevLogIndex, req.prevLogTerm, req.entries, writes),
                         Accepted(r, req.term, io);
            && (resp.success <==> ok && a.ok) && (resp.success ==> resp.matchIndex == a.matchIndex)
            && n.commitIndex == (if resp.success then Max(r.commitIndex, Min(req.leaderCommit, a.matchIndex))
                                 else r.commitIndex)
            && resp.term == n.Term() == (if ok then req.term else r.Term())
            && (ok ==> n.role == Follower && n.leaderID == req.leaderID) && n.lastApplied == r.lastApplied
            && log' == (if ok then a.log else log)
            && (ok && !a.ok ==> resp.conflictIndex == a.conflictIndex && resp.conflictTerm == a.conflictTerm)
  {
    hide AppendEntries, Raft.Accept;
    if req.term >= r.persistent.term {
      AcceptIs(r, req.term, req.leaderID, io);
    }
  }

  lemma MatchedIs(s: LogState, prev: int, prevTerm: int, es: seq<LogEntry>, writes: nat)
    requires Contiguous(es, prev)
    ensures var r := AppendEntries(s, prev, prevTerm, es, writes);
            r.ok ==> r.matchIndex == prev + |es|
  {
    hide SpliceEntries;
  }

  /** What a refusal for the log's sake tells the leader: where a log that is too short ends, or the term
      in the way and the first index from which, above the boundary, there is nothing but that term. */
  lemma RefusalHints(log: LogState, full: Log, prev: int, prevTerm: int, es: seq<LogEntry>, writes: nat)
    requires Represents(log, full) && log.lastIncludedIndex < prev && TermOf(full, prev) != prevTerm
    ensures var a := AppendEntries(log, prev, prevTerm, es, writes);
            && !a.ok && a.log == log
            && (prev > |full| ==> a.conflictIndex == |full| + 1 && a.conflictTerm == 0)
            && (prev <= |full| ==>
                  && a.conflictTerm == TermOf(full, prev) && log.lastIncludedIndex < a.conflictIndex <= prev
                  && (forall k :: a.conflictIndex <= k <= prev ==> TermOf(full, k) == TermOf(full, prev))
                  && (a.conflictIndex > log.lastIncludedIndex + 1 ==>
                        TermOf(full, a.conflictIndex - 1) != TermOf(full, prev)))
  {
    LastAgrees(log, full);
    AccessorsAgree(log, full, prev);
    if prev <= |full| {
      HintIs(log, full, prev);
    }
    hide SpliceEntries, Represents, LogState.TermAt, LogState.LastIndex, LogState.ConflictStart;
  }

  lemma HintIs(log: LogState, full: Log, prev: int)
    requires Represents(log, full) && log.lastIncludedIndex < prev <= |full|
    ensures var b, start := log.lastIncludedIndex, log.ConflictStart(prev, TermOf(full, prev));
            && b < start <= prev
            && (forall k :: start <= k <= prev ==> TermOf(full, k) == TermOf(full, prev))
            && (start > b + 1 ==> TermOf(full, start - 1) != TermOf(full, prev))
  {
    var start := log.ConflictStart(prev, TermOf(full, prev));
    forall k | start <= k < prev
      ensures TermOf(full, k) == TermOf(full, prev)
    {
      AccessorsAgree(log, full, k);
      assert log.EntryTerm(k) == TermOf(full, prev);
    }
    if start > log.lastIncludedIndex + 1 {
      AccessorsAgree(log, full, start - 1);
    }
  }

  /** A snapshot is acknowledged exactly when its leader is accepted and it is old news or completes. One
      that completes becomes the machine and the stored snapshot, raises both indices to its own and leaves
      the log it is part of, or its prefix alone; one that is restored but not persisted replaces the
      machine and nothing else. */
  lemma InstallAnsweredExactlyWhen(n: Raft, log: LogState, full: Log, machine: Machine, stored: Option<Snapshot>,
                                   prefix: Log, req: SnapshotRequest, io: Disk, install: Install)
    requires Represents(log, full) && WellIndexed(prefix) && prefix != []
    requires req.snapshot.index == |prefix| && req.snapshot.term == TermOf(prefix, |prefix|)
    ensures var d := HandleInstallSnapshot(n, log, machine, stored, req, io, install);
            var k, news := |prefix|, Accepted(n, req.term, io) && |prefix| > log.lastIncludedIndex;
            && (d.reply.success <==> Accepted(n, req.term, io) && (k <= log.lastIncludedIndex || install == Completes))
            && d.machine == (if news && install != RestoreFails then req.snapshot.state else machine)
            && (if news && install == Completes
                then && d.snapshot == Some(req.snapshot) && d.log.lastIncludedIndex == k
                     && d.raft.commitIndex == Max(n.commitIndex, k) && d.raft.lastApplied == Max(n.lastApplied, k)
                     && Represents(d.log, if Contains(full, prefix) then full else prefix)
                else && d.snapshot == stored && d.log == log
                     && d.raft.commitIndex == n.commitIndex && d.raft.lastApplied == n.lastApplied)
            && d.reply.term == d.raft.Term() == (if Accepted(n, req.term, io) then req.term else n.Term())
  {
    assert log.firstIndex == log.lastIncludedIndex + 1;
    if req.term >= n.persistent.term {
      AcceptIs(n, req.term, req.leaderID, io);
      if |prefix| > log.lastIncludedIndex {
        ResetRefines(log, full, prefix);
      }
    }
    hide Raft.Accept, Represents, LogState.ResetToSnapshot;
  }

  // ---- Leading ----

  /** The servers known to hold everything up to k, the leader among them by its own log. */
  ghost function HoldersOf(r: Raft, log: LogState, k: int): set<int> {
    set p | p in r.config.All() && (if p == r.id then log.LastIndex() else MatchOf(r.matchIndex, p)) >= k
  }

  /** A leader moves its commit index to k exactly when a quorum holds k, none holds k + 1, and the entry
      at k is of its own term; otherwise nothing about it changes. */
  lemma CommitsExactlyWhen(r: Raft, log: LogState, term: int, k: int)
    requires r.config.voters != map[] && r.role == Leader && k > r.commitIndex
    ensures var n := r.AdvanceCommitIndex(log, term);
            && (n.commitIndex == k <==> && r.config.HasQuorum(HoldersOf(r, log, k))
                                        && !r.config.HasQuorum(HoldersOf(r, log, k + 1)) && log.TermAt(k) == term)
            && n == r.(commitIndex := n.commitIndex) && n.commitIndex >= r.commitIndex
  {
    hide Configuration.HasQuorum, LogState.TermAt, LogState.LastIndex;
    var held := r.matchIndex[r.id := log.LastIndex()];
    var q := Frontier(r.config, held);
    HoldersAre(r, log, k);
    HoldersAre(r, log, k + 1);
    assert r.config.HasQuorum(Holding(r.config.All().Keys, held, k)) <==> k <= q;
    assert r.config.HasQuorum(Holding(r.config.All().Keys, held, k + 1)) <==> k + 1 <= q;
  }

  lemma AdvanceIs(r: Raft, log: LogState, term: int, q: int)
    requires r.config.voters != map[] && r.role == Leader
    requires q == Frontier(r.config, r.matchIndex[r.id := log.LastIndex()])
    ensures r.AdvanceCommitIndex(log, term)
            == if q > r.commitIndex && log.TermAt(q) == term then r.(commitIndex := q) else r
  {
    hide LogState.TermAt, LogState.LastIndex, Frontier;
  }

  lemma HoldersAre(r: Raft, log: LogState, k: int)
    ensures HoldersOf(r, log, k) == Holding(r.config.All().Keys, r.matchIndex[r.id := log.LastIndex()], k)
  {
    hide Configuration.All, LogState.LastIndex;
  }

  /** Whoever is not leading commits nothing by itself. */
  lemma OnlyLeadersCommit(r: Raft, log: LogState, term: int)
    requires r.config.voters != map[] && r.role != Leader
    ensures r.AdvanceCommitIndex(log, term) == r
  {
  }

  /** A waiting write is answered nil by the tick exactly when it is of the leader's term and the commit
      index has reached it, and goes on waiting exactly when it is of that term and not reached. */
  lemma WriteAnsweredExactlyWhen(h: History, i: int, n: Node, w: Waiter)
    requires n.raft.config.voters != map[] && n.raft.role == Leader && w in n.engine.waiters && w !in h.written
    ensures var e := TickLeader(h, i, n);
            var reached := w.index <= e.node.raft.commitIndex;
            && e.node.raft == n.raft.AdvanceCommitIndex(n.log, n.raft.Term())
            && (w in e.h.written <==> w.term == n.raft.Term() && reached)
            && (w in e.node.engine.waiters <==> w.term == n.raft.Term() && !reached)
  {
    hide Raft.AdvanceCommitIndex, Configuration.HasQuorum;
  }

  /** A leader's write goes to the end of its log, in its term, and its client waits for that very entry. */
  lemma WriteLogged(h: History, i: int, n: Node, full: Log, cmd: Command)
    requires i in h.full && n.raft.role == Leader && n.raft.Term() in h.reigns
    requires Represents(n.log, full) && n.log.Aligned()
    ensures var e := Propose(h, i, n, cmd, true);
            && Represents(e.node.log, full + [LogEntry(|full| + 1, n.raft.Term(), cmd)]) && e.node.log.Aligned()
            && e.node.engine.waiters == n.engine.waiters + {Waiter(|full| + 1, n.raft.Term(), cmd)}
            && e.node.raft == n.raft
  {
    RepresentedEnd(n.log, full);
    LeaderAppendRefines(n.log, full, cmd, n.raft.Term());
    hide Represents, LogState.AppendLeader;
  }

  /** The request to a peer whose next index is above the boundary: the leader's log from there on, with
      the index and term before it. */
  lemma EntriesRequested(h: History, i: int, n: Node, full: Log, peer: int)
    requires Represents(n.log, full) && n.raft.role == Leader && peer in n.raft.config.Peers(i)
    requires peer in n.raft.nextIndex && n.log.firstIndex <= n.raft.nextIndex[peer] <= |full| + 1
    ensures var e, prev := SendAppend(h, i, n, peer), n.raft.nextIndex[peer] - 1;
            e.out == {AppendReq(peer, n.engine.roundSeq + 1,
                                AppendRequest(n.raft.Term(), n.raft.id, prev, TermOf(full, prev), full[prev..],
                                              n.raft.commitIndex))}
  {
    var next := n.raft.nextIndex[peer];
    AccessorsAgree(n.log, full, next - 1);
    EntriesAgree(n.log, full, next);
    if next > |full| {
      assert full[next - 1..] == [];
    }
    hide Represents, LogState.TermAt, LogState.EntriesFrom, Configuration.Peers;
  }

  /** A reply in the leader's term: a success credits the peer with the match, never with less than
      before; a refusal lowers its next index, to the hint if that is lower, and not below one; either
      is evidence of the round. Nobody else's progress changes. */
  lemma ReplyBooked(h: History, i: int, n: Node, m: Msg, p: int)
    requires m.AppendResp? && n.raft.role == Leader && m.sent == n.raft.Term() == m.appended.term
    requires m.from in n.raft.config.Peers(i) && m.from in n.raft.matchIndex && m.from in n.raft.nextIndex
    ensures var r, e := m.appended, OnAppendResp(h, i, n, m, Durable, true).node;
            var match', next', ack := e.raft.matchIndex, e.raft.nextIndex, e.engine.lastAck;
            var next := n.raft.nextIndex[m.from];
            && (p != m.from ==> && MatchOf(match', p) == MatchOf(n.raft.matchIndex, p)
                                && MatchOf(next', p) == MatchOf(n.raft.nextIndex, p)
                                && MatchOf(ack, p) == MatchOf(n.engine.lastAck, p))
            && MatchOf(match', m.from) == (if r.success then Max(n.raft.matchIndex[m.from], r.matchIndex)
                                           else n.raft.matchIndex[m.from])
            && MatchOf(next', m.from) == (if r.success then Max(next, r.matchIndex + 1)
                                          else Max(1, if 0 < r.conflictIndex < next then r.conflictIndex else next - 1))
            && MatchOf(ack, m.from) == Max(MatchOf(n.engine.lastAck, m.from), m.round)
  {
    hide Configuration.Peers;
  }

  // ---- Applying ----

  /** A committed entry is applied next exactly when the log still holds it and the machine takes it. */
  lemma AppliedExactlyWhen(h: History, ttl: int, n: Node, full: Log)
    requires Represents(n.log, full) && 0 <= n.raft.lastApplied && n.log.lastIncludedIndex <= n.raft.lastApplied
    ensures var e, k := ApplyOne(h, ttl, n), n.raft.lastApplied + 1;
            var ready := k <= n.raft.commitIndex && k <= |full|;
            && (e.node.raft.lastApplied == k
                <==> ready && Apply(n.machine, ttl, k, full[k - 1].command).1 == Applied)
            && (e.node.raft.lastApplied == k ==> e.node.machine == Apply(n.machine, ttl, k, full[k - 1].command).0)
            && (e.node.raft.lastApplied != k ==> e.node == n)
  {
    AccessorsAgree(n.log, full, n.raft.lastApplied + 1);
    hide Apply, Represents, LogState.GetEntry;
  }

  /** A compaction happens exactly when something was applied whose term is known: the machine is stored
      under the applied index with that term, and the log stands for the same sequence behind it. */
  lemma CompactedExactlyWhen(h: History, n: Node, full: Log)
    requires Represents(n.log, full) && n.log.lastIncludedIndex <= n.raft.lastApplied <= |full|
    requires forall p :: 0 <= p < |full| ==> full[p].term >= 1
    ensures var e, k := Compact(h, n).node, n.raft.lastApplied;
            && (if k < 1 then e == n
                else e.snapshot == Some(Snapshot(k, TermOf(full, k), n.machine)) && e.log.lastIncludedIndex == k)
            && Represents(e.log, full) && e.machine == n.machine && e.raft == n.raft
  {
    AccessorsAgree(n.log, full, n.raft.lastApplied);
    CompactionRefines(n.log, full, n.raft.lastApplied);
    hide Represents, LogState.TruncateBefore, LogState.TermAt;
  }

  /** The snapshot shipped is the stored one, exactly where the log no longer reaches back far enough. */
  lemma SnapshotShippedExactlyWhen(h: History, i: int, n: Node, peer: int)
    requires n.raft.role == Leader && peer in n.raft.config.Peers(i) && peer in n.raft.nextIndex
    requires n.raft.nextIndex[peer] >= 1
    ensures SendSnapshot(h, i, n, peer).out
            == if n.snapshot.Some? && n.raft.nextIndex[peer] < n.log.firstIndex
               then {SnapReq(peer, n.engine.roundSeq + 1, SnapshotRequest(n.raft.Term(), i, n.snapshot.value))} else {}
  {
    hide Configuration.Peers;
  }

  /** A snapshot confirmed credits the peer with its index; one refused credits nothing. Either is
      evidence of the round. */
  lemma ShipmentBooked(h: History, i: int, n: Node, m: Msg)
    requires m.SnapResp? && n.raft.role == Leader && m.sent == n.raft.Term() == m.installed.term
    requires m.from in n.raft.config.Peers(i) && m.from in n.raft.matchIndex && m.from in n.raft.nextIndex
    ensures var e := OnSnapResp(h, i, n, m, Durable, true).node;
            && MatchOf(e.raft.matchIndex, m.from)
               == (if m.installed.success then Max(n.raft.matchIndex[m.from], m.index) else n.raft.matchIndex[m.from])
            && MatchOf(e.raft.nextIndex, m.from)
               == (if m.installed.success then Max(n.raft.nextIndex[m.from], m.index + 1) else n.raft.nextIndex[m.from])
            && MatchOf(e.engine.lastAck, m.from) == Max(MatchOf(n.engine.lastAck, m.from), m.round)
  {
    hide Configuration.Peers;
  }

  /** A reply from a later term ends leadership or candidacy: that term is adopted with no vote in it, and
      a leader's clients are all let go. */
  lemma LaterTermDeposes(h: History, i: int, n: Node, m: Msg)
    requires m.AppendResp? || m.SnapResp? || m.VoteResp?
    requires m.AppendResp? ==> n.raft.role == Leader && m.sent == n.raft.Term() < m.appended.term
                               && m.from in n.raft.config.Peers(i)
    requires m.SnapResp? ==> n.raft.role == Leader && m.sent == n.raft.Term() < m.installed.term
                             && m.from in n.raft.config.Peers(i)
    requires m.VoteResp? ==> n.raft.role == Candidate && m.election == n.raft.Term() < m.term && i in h.full
    ensures var e := if m.AppendResp? then OnAppendResp(h, i, n, m, Durable, true)
                     else if m.SnapResp? then OnSnapResp(h, i, n, m, Durable, true)
                     else OnVoteResp(h, i, n, m, Durable, None);
            var t := if m.AppendResp? then m.appended.term else if m.SnapResp? then m.installed.term else m.term;
            && e.node.raft.role == Follower && e.node.raft.persistent == e.node.raft.disk == Persistent(t, -1)
            && e.node.raft.leaderID == 0 && e.node.log == n.log
            && (n.raft.role == Leader ==> e.node.engine.waiters == {} && e.node.engine.pending == {})
  {
    hide Configuration.Peers, Configuration.HasQuorum;
  }

  /** Losing contact ends leadership in the same term, with the vote kept and every client let go. */
  lemma LostContactDeposes(h: History, n: Node)
    ensures var e := StepDown(h, n).node;
            && e.raft == n.raft.(role := Follower, leaderID := 0) && e.log == n.log
            && e.engine.waiters == {} && e.engine.pending == {}
  {
  }

  /** A read waits for the commit index or the no-op, whichever is higher, and for rounds started from
      now on. */
  lemma ReadAdmitted(h: History, i: int, n: Node, awaitApply: bool, read: Read)
    requires n.raft.role == Leader
    ensures var e := AdmitRead(h, i, n, awaitApply).node;
            && (read in e.engine.pending && read !in n.engine.pending ==>
                  && read.leader == i && read.term == n.raft.Term() && read.awaitApply == awaitApply
                  && read.readIndex == Max(n.engine.noopIndex, n.raft.commitIndex) && read.barrier == n.engine.roundSeq)
            && n.engine.pending <= e.engine.pending
            && exists r :: r in e.engine.pending && r.leader == i && r.term == n.raft.Term()
                           && r.readIndex == Max(n.engine.noopIndex, n.raft.commitIndex)
                           && r.barrier == n.engine.roundSeq && r.awaitApply == awaitApply
  {
    var e := AdmitRead(h, i, n, awaitApply).node;
    assert Admitted(h, i, n, awaitApply) in e.engine.pending;
  }

  /** A restart keeps what was saved: the record, the log and the snapshot, with the machine and both
      indices at the snapshot; the member is a follower that knows no leader. */
  lemma RestartKeeps(n: Node, full: Log)
    requires Represents(n.log, full)
    requires match n.snapshot
             case None => n.log.lastIncludedIndex == 0
             case Some(s) => s.index == n.log.lastIncludedIndex && s.term == n.log.lastIncludedTerm
    ensures var r, base := Restarted(n), n.log.lastIncludedIndex;
            && Represents(r.log, full) && r.log.Aligned() && r.log.lastIncludedIndex == base && r.snapshot == n.snapshot
            && r.machine == (if n.snapshot.Some? then n.snapshot.value.state else FRESH)
            && r.raft.lastApplied == r.raft.commitIndex == base
            && r.raft.persistent == r.raft.disk == n.raft.disk
            && r.raft.role == Follower && r.raft.leaderID == 0 && r.raft.config == n.raft.config
  {
    assert 0 <= n.log.lastIncludedIndex && (n.snapshot.None? ==> n.log.lastIncludedTerm == 0);
    RestoredBase(n.log);
    hide Represents, Recovered, LogState.RestoreOffset, Uniform, Configuration.Peers;
    RestartRefines(n.log, full);
  }

  lemma RestoredBase(s: LogState)
    ensures Recovered(s.cache).RestoreOffset(s.lastIncludedIndex, s.lastIncludedTerm).lastIncludedIndex
            == s.lastIncludedIndex
  {
  }

  /** A record is adopted exactly when it is durable or already the one in memory; a failed save leaves
      memory alone, whatever reached the disk. */
  lemma SavedExactlyWhen(r: Raft, next: Persistent, io: Disk)
    ensures var (n, ok) := r.Save(next, io);
            && (ok <==> io.Durable? || next == r.persistent) && n == r.(persistent := n.persistent, disk := n.disk)
            && n.persistent == (if ok then next else r.persistent)
            && n.disk == if next != r.persistent && io != Failed(false) then next else r.disk
  {
  }

  /** A shipped snapshot that is not stale, and can be persisted if it is restored, is taken in and
      answered; the answer names its index and its round. */
  lemma ShipmentAnswered(h: History, i: int, n: Node, m: Msg, full: Log, prefix: Log, install: Install)
    requires i in h.full && m.SnapReq? && Represents(n.log, full) && WellIndexed(prefix) && prefix != []
    requires m.ship.snapshot.index == |prefix| && m.ship.snapshot.term == TermOf(prefix, |prefix|)
    requires install != PersistFails && m.ship.term >= n.raft.Term()
    requires |prefix| > n.log.lastIncludedIndex ==> |prefix| >= n.raft.lastApplied
    ensures var e, k := OnSnapReq(h, i, n, m, Durable, install), |prefix|;
            var ok := k <= n.log.lastIncludedIndex || install == Completes;
            && e.out == {SnapResp(m.ship.leaderID, i, m.ship.term, m.round, k, SnapshotResponse(m.ship.term, ok))}
            && (k > n.log.lastIncludedIndex && ok ==>
                  && e.node.machine == m.ship.snapshot.state && e.node.snapshot == Some(m.ship.snapshot)
                  && e.node.raft.lastApplied == k && e.node.raft.commitIndex == Max(n.raft.commitIndex, k)
                  && Represents(e.node.log, if Contains(full, prefix) then full else prefix))
  {
    hide HandleInstallSnapshot, Represents, Raise, LogState.Retains;
    InstallAnsweredExactlyWhen(n.raft, n.log, full, n.machine, n.snapshot, prefix, m.ship, Durable, install);
  }

  /** Clients that give up are gone, and nobody else. */
  lemma GoneExactly(h: History, n: Node, waiters: set<Waiter>, gone: set<Read>, w: Waiter, read: Read)
    ensures var e := DropClients(h, n, waiters, gone).node;
            && (w in e.engine.waiters <==> w in n.engine.waiters && w !in waiters)
            && (read in e.engine.pending <==> read in n.engine.pending && read !in gone)
            && e.raft == n.raft && e.log == n.log
  {
  }
}
