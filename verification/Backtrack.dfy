/** Finding the point where two logs agree (internal/raft/replicator.go, section 5.3 of the Raft
    paper): every rejection lowers the next index, skips a whole term of the follower's log, and
    the success that ends the search leaves the leader's log a prefix of the follower's. */
module Backtrack {
  import opened Sets
  import opened Membership
  import opened Store
  import opened RaftLog
  import opened Consensus
  import opened Ledger
  import opened Cluster
  import opened Invariant
  import opened Frames
  import opened Replication
  import opened Receivers
  import opened LogRuns
  import opened Decisions
  import opened Runs
  import opened Safety
  import DurableLog
  import NodeObject

  /** The terms that occur in a log. */
  function Terms(log: Log): set<int> {
    set p | 0 <= p < |log| :: log[p].term
  }

  /** An upper bound on the rejections still to come when the next index is `next` and the follower
      has compacted the first b entries. */
  function Patience(follower: Log, b: nat, next: int): nat
    requires b <= |follower|
  {
    if next - 1 > |follower| then 1 + |Terms(follower[b..])|
    else if next - 1 <= b then 0
    else |Terms(follower[b..next - 1])|
  }

  /** Two logs that share an index and a term share everything up to it. */
  ghost predicate Matching(a: Log, b: Log) {
    forall p :: 0 <= p < |a| && p < |b| && a[p].term == b[p].term ==> a[..p + 1] == b[..p + 1]
  }

  ghost predicate PositiveTerms(log: Log) {
    forall p :: 0 <= p < |log| ==> log[p].term >= 1
  }

  /** The request a leader with this log sends at `next`. */
  function ProbeAt(leader: LogState, next: int): AppendRequest {
    AppendRequest(0, 0, next - 1, if next - 1 > 0 then leader.TermAt(next - 1) else 0, leader.EntriesFrom(next), 0)
  }

  function Answer(follower: LogState, req: AppendRequest, writes: nat): AppendResult {
    AppendEntries(follower, req.prevLogIndex, req.prevLogTerm, req.entries, writes)
  }

  /** A leader's log and that of a follower which has compacted only what the leader has too. */
  ghost predicate Related(leader: LogState, full: Log, follower: LogState, held: Log) {
    && Represents(leader, full) && Represents(follower, held) && held[..follower.lastIncludedIndex] <= full
    && Matching(held, full) && Sorted(held) && PositiveTerms(held) && PositiveTerms(full)
  }

  /** A search in progress: the leader's log is fixed, the next index above the follower's boundary. */
  ghost predicate Searching(leader: LogState, full: Log, follower: LogState, held: Log, next: int) {
    && Related(leader, full, follower, held)
    && leader.firstIndex <= next <= |full| + 1 && follower.lastIncludedIndex < next
  }

  lemma Request(leader: LogState, full: Log, follower: LogState, held: Log, next: int)
    requires Searching(leader, full, follower, held, next)
    ensures var req := ProbeAt(leader, next);
            && 0 <= req.prevLogIndex == next - 1 && req.prevLogTerm == TermOf(full, next - 1)
            && req.entries == full[next - 1..] && Contiguous(req.entries, next - 1)
  {
    AccessorsAgree(leader, full, next - 1);
    EntriesAgree(leader, full, next);
  }

  // ---- Success ----

  lemma AgreeBefore(held: Log, full: Log, prev: nat)
    requires Matching(held, full) && PositiveTerms(held) && prev <= |held| && prev <= |full|
             && TermOf(held, prev) == TermOf(full, prev)
    ensures Continues(held, prev, full[prev..], full)
  {
    assert prev > 0 ==> held[..prev] == full[..prev];
    assert full[prev..prev + |full[prev..]|] == full[prev..];
    forall p | 0 <= p < |held| && p < |full| && held[p].term == full[p].term
      ensures held[..p + 1] <= full
    {
      assert held[..p + 1] == full[..p + 1];
    }
  }

  /** A probe that is not refused stores the whole batch. */
  lemma ProbeAccepted(leader: LogState, full: Log, follower: LogState, held: Log, next: int, writes: nat)
    requires Searching(leader, full, follower, held, next) && writes > |full|
    requires next - 1 <= |held| && TermOf(held, next - 1) == TermOf(full, next - 1)
    ensures var r := Answer(follower, ProbeAt(leader, next), writes);
            && r.ok && r.matchIndex == |full|
            && exists after :: Represents(r.log, after) && full <= after && (after == held || after == full)
  {
    hide Answer, AppendEntries, ProbeAt, Splice, SpliceEntries, Agreeing, Continues, LogState.TermAt,
         LogState.LastIndex;
    var req := ProbeAt(leader, next);
    var prev := next - 1;
    Request(leader, full, follower, held, next);
    LastAgrees(follower, held);
    AccessorsAgree(follower, held, prev);
    AgreeBefore(held, full, prev);
    Stores(follower, held, prev, full, req.entries, writes);
    AnswerAccepts(follower, req, writes);
    hide Represents, Searching, Matching, Sorted, PositiveTerms;
    PassedBatchLands(full, held, follower, req, writes);
    StoredWhole(held, full, Splice(held, prev, req.entries, writes));
  }

  lemma StoredWhole(held: Log, full: Log, after: Log)
    requires after == held || after <= full
    requires full[..|full|] <= after
    ensures full <= after && (after == held || after == full)
  {
    assert full[..|full|] == full;
  }

  lemma AnswerAccepts(follower: LogState, req: AppendRequest, writes: nat)
    requires req.prevLogIndex > 0
             ==> req.prevLogIndex <= follower.LastIndex() && follower.TermAt(req.prevLogIndex) == req.prevLogTerm
    requires SpliceEntries(follower, req.entries, writes).ok
             && SpliceEntries(follower, req.entries, writes).appended < writes
    ensures Answer(follower, req, writes).ok
    ensures Answer(follower, req, writes)
            == AppendEntries(follower, req.prevLogIndex, req.prevLogTerm, req.entries, writes)
  {
    hide SpliceEntries;
  }

  /** The disk has room for the batch and its sync, so the splice goes through. */
  lemma Stores(follower: LogState, held: Log, prev: nat, full: Log, es: seq<LogEntry>, writes: nat)
    requires Represents(follower, held) && Contiguous(es, prev) && follower.lastIncludedIndex <= prev <= |held|
    requires prev <= |full| && es == full[prev..] && writes > |full|
    ensures var r := SpliceEntries(follower, es, writes); r.ok && r.appended < writes
  {
    SpliceRefines(follower, held, prev, es, writes);
  }

  // ---- Rejection ----

  lemma TermGone(held: Log, b: nat, prev: int, start: int)
    requires Sorted(held) && b + 1 <= start <= prev <= |held|
    requires start > b + 1 ==> held[start - 2].term != held[prev - 1].term
    ensures |Terms(held[b..start - 1])| < |Terms(held[b..prev])|
  {
    var t := held[prev - 1].term;
    var few, many := held[b..start - 1], held[b..prev];
    assert t in Terms(many) by {
      assert many[prev - 1 - b].term == t;
    }
    forall u | u in Terms(few)
      ensures u in Terms(many) && u != t
    {
      var p :| 0 <= p < |few| && few[p].term == u;
      assert many[p].term == u && held[b + p].term <= held[start - 2].term <= t;
    }
    SubsetSize(Terms(few), Terms(many) - {t});
  }

  /** A probe refused for its term names the start of the follower's run of that term, or of its log. */
  lemma ConflictSkipsTerm(follower: LogState, held: Log, prev: int)
    requires Represents(follower, held) && follower.lastIncludedIndex < prev <= |held|
    ensures var b, start := follower.lastIncludedIndex, follower.ConflictStart(prev, held[prev - 1].term);
            b + 1 <= start <= prev && (start > b + 1 ==> held[start - 2].term != held[prev - 1].term)
  {
    var start := follower.ConflictStart(prev, held[prev - 1].term);
    if start > follower.lastIncludedIndex + 1 {
      AccessorsAgree(follower, held, start - 1);
    }
  }

  lemma AnswerRefuses(follower: LogState, req: AppendRequest, writes: nat)
    requires req.prevLogIndex > 0
             && (req.prevLogIndex > follower.LastIndex() || follower.TermAt(req.prevLogIndex) != req.prevLogTerm)
    ensures var r := Answer(follower, req, writes);
            && !r.ok && r.log == follower
            && r.conflictIndex == if req.prevLogIndex > follower.LastIndex() then follower.LastIndex() + 1
                                  else follower.ConflictStart(req.prevLogIndex, follower.TermAt(req.prevLogIndex))
  {
    hide SpliceEntries, LogState.ConflictStart;
  }

  /** Backing up past the end of the follower's log, or to the start of a run of one term, uses up patience. */
  lemma PatienceDrops(held: Log, b: nat, next: int, start: int)
    requires b + 1 < next && b <= |held| && Sorted(held)
    requires if next - 1 > |held| then start == |held| + 1
             else b + 1 <= start <= next - 1 && (start > b + 1 ==> held[start - 2].term != held[next - 2].term)
    ensures b < Backtracked(next, start) < next && Patience(held, b, Backtracked(next, start)) < Patience(held, b, next)
  {
    assert Backtracked(next, start) == start;
    if next - 1 > |held| {
      assert held[b..|held|] == held[b..];
    } else {
      TermGone(held, b, next - 1, start);
    }
  }

  /** Every rejection strictly lowers the next index, but never to the follower's boundary, and uses up
      patience; the follower is unchanged. */
  lemma ProbeRejected(leader: LogState, full: Log, follower: LogState, held: Log, next: int, writes: nat)
    requires Searching(leader, full, follower, held, next) && writes > |full|
    requires !Answer(follower, ProbeAt(leader, next), writes).ok
    ensures var r, b := Answer(follower, ProbeAt(leader, next), writes), follower.lastIncludedIndex;
            var lower := Backtracked(next, r.conflictIndex);
            && r.log == follower && 0 <= b < lower < next && b <= |held|
            && Patience(held, b, lower) < Patience(held, b, next)
  {
    hide Answer, ProbeAt, Patience, Backtracked, LogState.TermAt, LogState.LastIndex, LogState.ConflictStart;
    var prev, b := next - 1, follower.lastIncludedIndex;
    Request(leader, full, follower, held, next);
    LastAgrees(follower, held);
    AccessorsAgree(follower, held, prev);
    if prev == b {
      assert b > 0 ==> held[..b][b - 1] == full[..b][b - 1];
    }
    if prev <= |held| && TermOf(held, prev) == TermOf(full, prev) {
      ProbeAccepted(leader, full, follower, held, next, writes);
    } else {
      AnswerRefuses(follower, ProbeAt(leader, next), writes);
      if prev <= |held| {
        ConflictSkipsTerm(follower, held, prev);
      }
      PatienceDrops(held, b, next, Answer(follower, ProbeAt(leader, next), writes).conflictIndex);
    }
  }

  // ---- The whole search, on the objects ----

  /** What becomes of a request and its reply. */
  datatype Link = Lost | ReplyLost | Delivered

  /** The request ReplicateTo sends. */
  function RequestTo(node: Raft, log: LogState, peer: int): AppendRequest {
    ProbeAt(log, node.NextIndexFor(peer)).(term := node.Term(), leaderID := node.id, leaderCommit := node.commitIndex)
  }

  /** The leader's bookkeeping on a reply; a higher term is left to the engine. */
  function Credited(node: Raft, peer: int, resp: AppendResponse): Raft {
    if resp.term > node.Term() then node
    else if resp.success then node.UpdatePeerProgress(peer, resp.matchIndex)
    else node.BacktrackNextIndex(peer, resp.conflictIndex)
  }

  /** One round: build the request, let the follower answer, book the reply. */
  method ReplicateTo(node: NodeObject.RaftNode, log: DurableLog.RaftLog, peer: int, follower: NodeObject.RaftNode,
                     followerLog: DurableLog.RaftLog, link: Link, io: Disk, writes: nat, rewrite: Disk, now: int)
    returns (reply: Option<AppendResponse>, ghost taken: nat)
    requires node != follower && log != followerLog
    modifies node`matchIndex, node`nextIndex, follower, followerLog`cache, followerLog`nextIndex, followerLog`wal
    ensures taken <= writes && (rewrite.Durable? ==> taken == writes)
    ensures link == Lost ==>
              && follower.State() == old(follower.State()) && followerLog.State() == old(followerLog.State())
              && node.State() == old(node.State()) && reply == None
    ensures link != Lost ==>
              var req := RequestTo(old(node.State()), log.State(), peer);
              var (r, l, resp) := old(follower.State()).HandleAppendEntries(old(followerLog.State()), req, io, taken);
              && follower.State() == r && followerLog.State() == l
              && reply == (if link == Delivered then Some(resp) else None)
              && node.State() == if link == Delivered then Credited(old(node.State()), peer, resp)
                                 else old(node.State())
  {
    taken := writes;
    if link == Lost {
      return None, writes;
    }
    var term := node.persistent.term;
    var next := node.State().NextIndexFor(peer);
    var prevLogIndex := next - 1;
    var prevLogTerm := 0;
    if prevLogIndex > 0 {
      prevLogTerm := log.State().TermAt(prevLogIndex);
    }
    var req := AppendRequest(term, node.nodeID, prevLogIndex, prevLogTerm, log.State().EntriesFrom(next),
                             node.commitIndex);
    var resp;
    resp, taken := follower.HandleAppendEntries(followerLog, req, io, writes, rewrite, now);
    if link == ReplyLost {
      return None, taken;
    }
    if resp.term > term {
      return Some(resp), taken;
    }
    if resp.success {
      node.UpdatePeerProgress(peer, resp.matchIndex);
    } else {
      node.BacktrackNextIndex(peer, resp.conflictIndex);
    }
    return Some(resp), taken;
  }

  /** A follower already in the leader's term only answers from its log. */
  lemma AnswersInTerm(follower: Raft, log: LogState, req: AppendRequest, writes: nat)
    requires follower.role == Follower && follower.Term() == req.term
    ensures var (r, log', resp) := follower.HandleAppendEntries(log, req, Durable, writes);
            var a := Answer(log, req, writes);
            && r.role == Follower && r.Term() == req.term && log' == a.log
            && resp.term == req.term && resp.success == a.ok
            && (a.ok ==> resp.matchIndex == a.matchIndex) && (!a.ok ==> resp.conflictIndex == a.conflictIndex)
            && r.commitIndex == if a.ok then Max(follower.commitIndex, Min(req.leaderCommit, a.matchIndex))
                                else follower.commitIndex
  {
    hide AppendEntries;
  }

  /** One delivered round in one term: the follower's log answers the probe, the leader books it. */
  lemma RoundIs(node: Raft, log: LogState, peer: int, follower: Raft, held: LogState, writes: nat)
    requires follower.role == Follower && follower.Term() == node.Term()
    requires peer in node.matchIndex && peer in node.nextIndex && node.nextIndex[peer] >= 1
    ensures var next := node.nextIndex[peer];
            var (r, held', resp) := follower.HandleAppendEntries(held, RequestTo(node, log, peer), Durable, writes);
            var a := Answer(held, ProbeAt(log, next), writes);
            && r.role == Follower && r.Term() == node.Term() && held' == a.log && resp.success == a.ok
            && r.commitIndex == (if a.ok then Max(follower.commitIndex, Min(node.commitIndex, a.matchIndex))
                                 else follower.commitIndex)
            && Credited(node, peer, resp)
               == if a.ok then node.UpdatePeerProgress(peer, a.matchIndex)
                  else node.(nextIndex := node.nextIndex[peer := Backtracked(next, a.conflictIndex)])
  {
    hide AppendEntries, Raft.HandleAppendEntries;
    AnswersInTerm(follower, held, RequestTo(node, log, peer), writes);
  }

  /** Rounds until the follower holds the leader's log, or the leader must ship a snapshot: at most
      one rejection more than the follower's log has terms. A snapshot due is newer than the follower's.
      A follower that holds the log has followed the leader's commit index through it. */
  method CatchUp(node: NodeObject.RaftNode, log: DurableLog.RaftLog, peer: int,
                 follower: NodeObject.RaftNode, followerLog: DurableLog.RaftLog, now: int,
                 ghost full: Log, ghost held: Log)
    returns (rejections: nat, matched: bool)
    requires node != follower && log != followerLog
    requires follower.role == Follower && follower.persistent.term == node.persistent.term
    requires peer in node.matchIndex && peer in node.nextIndex && node.matchIndex[peer] <= |full|
    requires 1 <= node.nextIndex[peer] && Searching(log.State(), full, followerLog.State(), held, node.nextIndex[peer])
    modifies node`matchIndex, node`nextIndex, follower, followerLog`cache, followerLog`nextIndex, followerLog`wal
    ensures rejections <= 1 + |Terms(held[old(followerLog.lastIncludedIndex)..])|
    ensures follower.commitIndex == if matched then Max(old(follower.commitIndex), Min(node.commitIndex, |full|))
                                    else old(follower.commitIndex)
    ensures matched ==> peer in node.matchIndex && node.matchIndex[peer] == |full|
                        && node.State().NextIndexFor(peer) == |full| + 1
                        && exists after :: Represents(followerLog.State(), after) && full <= after
                                           && (after == held || after == full)
    ensures !matched ==> node.State().NextIndexFor(peer) < log.firstIndex
                         && followerLog.State() == old(followerLog.State())
                         && log.lastIncludedIndex > followerLog.lastIncludedIndex
  {
    hide Raft.HandleAppendEntries, Searching, Patience, AppendEntries, Represents, Terms, Answer, ProbeAt, RequestTo,
         Credited, Backtracked;
    rejections, matched := 0, false;
    SearchingIs(log.State(), full, followerLog.State(), held, node.nextIndex[peer]);
    var writes := log.State().LastIndex() + 1;
    LastAgrees(log.State(), full);
    ghost var b := followerLog.lastIncludedIndex;
    PatienceBound(held, b, node.nextIndex[peer]);
    while !matched && node.State().NextIndexFor(peer) >= log.firstIndex
      invariant follower.role == Follower && follower.persistent.term == node.persistent.term
      invariant peer in node.matchIndex && peer in node.nextIndex && 0 <= b < node.nextIndex[peer] && b <= |held|
      invariant follower.commitIndex == if matched then Max(old(follower.commitIndex), Min(node.commitIndex, |full|))
                                        else old(follower.commitIndex)
      invariant b == old(followerLog.lastIncludedIndex) && log.firstIndex == log.lastIncludedIndex + 1
      invariant !matched ==> followerLog.State() == old(followerLog.State()) && node.matchIndex == old(node.matchIndex)
      invariant !matched && node.nextIndex[peer] >= log.firstIndex
                ==> Searching(log.State(), full, followerLog.State(), held, node.nextIndex[peer])
      invariant rejections + (if matched then 0 else Patience(held, b, node.nextIndex[peer])) <= 1 + |Terms(held[b..])|
      invariant matched ==> node.matchIndex[peer] == |full| && node.nextIndex[peer] == |full| + 1
                            && exists after :: Represents(followerLog.State(), after) && full <= after
                                               && (after == held || after == full)
      decreases !matched, node.nextIndex[peer]
    {
      ghost var next := node.nextIndex[peer];
      SearchingIs(log.State(), full, followerLog.State(), held, next);
      ghost var before := followerLog.State();
      RoundIs(node.State(), log.State(), peer, follower.State(), before, writes);
      var reply, _ := ReplicateTo(node, log, peer, follower, followerLog, Delivered, Durable, writes, Durable, now);
      if reply.value.success {
        matched := true;
        Found(log.State(), full, before, held, next, writes);
      } else {
        rejections := rejections + 1;
        ProbeRejected(log.State(), full, before, held, next, writes);
        SearchesLower(log.State(), full, before, held, next, node.nextIndex[peer]);
      }
    }
  }

  lemma SearchingIs(leader: LogState, full: Log, follower: LogState, held: Log, next: int)
    requires Searching(leader, full, follower, held, next)
    ensures Represents(leader, full) && leader.firstIndex == leader.lastIncludedIndex + 1 && next <= |full| + 1
    ensures 0 <= follower.lastIncludedIndex < next && follower.lastIncludedIndex <= |held|
  {
  }

  lemma SearchesLower(leader: LogState, full: Log, follower: LogState, held: Log, next: int, lower: int)
    requires Searching(leader, full, follower, held, next) && follower.lastIncludedIndex < lower <= next
    ensures lower >= leader.firstIndex ==> Searching(leader, full, follower, held, lower)
  {
  }

  lemma PatienceBound(held: Log, b: nat, next: int)
    requires b <= |held|
    ensures Patience(held, b, next) <= 1 + |Terms(held[b..])|
  {
    if b + 1 < next <= |held| + 1 {
      var part := held[b..next - 1];
      forall t | t in Terms(part)
        ensures t in Terms(held[b..])
      {
        var p :| 0 <= p < |part| && part[p].term == t;
        assert held[b..][p].term == t;
      }
      SubsetSize(Terms(part), Terms(held[b..]));
    }
  }

  lemma Found(leader: LogState, full: Log, follower: LogState, held: Log, next: int, writes: nat)
    requires Searching(leader, full, follower, held, next) && writes > |full|
    requires Answer(follower, ProbeAt(leader, next), writes).ok
    ensures var r := Answer(follower, ProbeAt(leader, next), writes);
            r.matchIndex == |full| && exists after :: Represents(r.log, after) && full <= after
                                                      && (after == held || after == full)
  {
    var prev := next - 1;
    Request(leader, full, follower, held, next);
    LastAgrees(follower, held);
    AccessorsAgree(follower, held, prev);
    ProbeAccepted(leader, full, follower, held, next, writes);
  }

  /** What a member has compacted, a leader of its term or a later one has too. */
  lemma BoundaryHeld(c: Configuration, ttl: int, h: History, i: int, leader: Node, j: int, n: Node)
    requires HistoryOk(c, h) && NodeOk(c, ttl, h, i, leader) && NodeOk(c, ttl, h, j, n)
    requires leader.raft.role == Leader && n.raft.Term() <= leader.raft.Term()
    ensures i in h.full && j in h.full && 0 <= n.log.lastIncludedIndex <= |h.full[j]|
    ensures h.full[j][..n.log.lastIncludedIndex] <= h.full[i]
  {
    hide HistoryOk, LedgerOk, CommittedBy, Represents, MachineOk;
    var b, t := n.log.lastIncludedIndex, leader.raft.Term();
    LeaderFacts(c, ttl, h, i, leader);
    CommitFacts(c, ttl, h, j, n);
    var prefix := h.full[j][..n.raft.commitIndex];
    CommittedLonger(h.reigns, h.commits, prefix, n.raft.Term(), t);
    LeaderHasCommitted(c, h.votes, h.bids, h.reigns, h.acks, h.commits, prefix, t);
    assert prefix[..b] == h.full[j][..b];
  }

  /** In every reachable state, a leader and a member not ahead of its term are in a position to
      search, from any next index above what the member has compacted. */
  lemma RunsCanSearch(c: Configuration, ttl: int, run: Run, a: nat, i: int, j: int, next: int)
    requires run.Of(c, ttl) && a < |run.states|
    requires var s := run.states[a];
             && i in s.nodes && j in s.nodes && i in s.h.full && s.nodes[i].raft.role == Leader
             && s.nodes[j].raft.Term() <= s.nodes[i].raft.Term() && s.nodes[j].log.lastIncludedIndex < next
             && s.nodes[i].log.firstIndex <= next <= |s.h.full[i]| + 1
    ensures var s := run.states[a];
            j in s.h.full && Searching(s.nodes[i].log, s.h.full[i], s.nodes[j].log, s.h.full[j], next)
  {
    hide NodeOk, MsgOk, Run.Of, SeenOk, ReadsOk, ReleasedOk, WrittenOk, PollsOk, Represents;
    RunOk(c, ttl, run, a);
    var s := run.states[a];
    LogFacts(c, ttl, s.h, i, s.nodes[i]);
    LogFacts(c, ttl, s.h, j, s.nodes[j]);
    BoundaryHeld(c, ttl, s.h, i, s.nodes[i], j, s.nodes[j]);
    GroundedIsPositive(c, s.h, s.h.full[i]);
    GroundedIsPositive(c, s.h, s.h.full[j]);
    GroundedSorted(c, s.h.votes, s.h.bids, s.h.reigns, s.h.full[j]);
    forall p | 0 <= p < |s.h.full[j]| && p < |s.h.full[i]| && s.h.full[j][p].term == s.h.full[i][p].term
      ensures s.h.full[j][..p + 1] == s.h.full[i][..p + 1]
    {
      LogMatching(s.h.reigns, s.h.full[j], s.h.full[i], p);
    }
  }

  lemma GroundedIsPositive(c: Configuration, h: History, log: Log)
    requires HistoryOk(c, h) && Grounded(h.reigns, log)
    ensures PositiveTerms(log)
  {
    LedgerCommits(c, h);
  }
}
