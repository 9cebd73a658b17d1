/** The AppendEntries receiver keeps the invariant. */
module Receivers {
  import opened Membership
  import opened Store
  import opened RaftLog
  import opened Consensus
  import opened Ledger
  import opened Cluster
  import opened Invariant
  import opened Frames
  import opened Elections
  import opened Replication

  // ---- What a batch does to the log ----

  ghost predicate Passes(full: Log, log: LogState, req: AppendRequest) {
    && 0 <= req.prevLogIndex <= |full| && log.lastIncludedIndex <= req.prevLogIndex
    && (req.prevLogIndex > 0 ==> log.TermAt(req.prevLogIndex) == req.prevLogTerm)
  }

  /** A batch that passes the consistency check continues the sender's log from a shared prefix. */
  lemma PassedBatchContinues(reigns: Reigns, t: int, full: Log, log: LogState, req: AppendRequest)
    requires t in reigns && Grounded(reigns, full) && Grounded(reigns, reigns[t].log)
             && (forall w :: w in reigns ==> w >= 1)
    requires Represents(log, full) && BatchOk(reigns[t].log, req) && Passes(full, log, req)
    ensures Continues(full, req.prevLogIndex, req.entries, reigns[t].log)
  {
    var sender := reigns[t].log;
    var prev := req.prevLogIndex;
    AccessorsAgree(log, full, prev);
    if prev > 0 {
      assert full[prev - 1].term >= 1;
      assert prev <= |sender| && full[prev - 1].term == sender[prev - 1].term;
      LogMatching(reigns, full, sender, prev - 1);
    }
    forall p | 0 <= p < |full| && p < |sender| && full[p].term == sender[p].term
      ensures full[..p + 1] <= sender
    {
      LogMatching(reigns, full, sender, p);
    }
  }

  lemma BatchIsContiguous(sender: Log, req: AppendRequest)
    requires WellIndexed(sender) && BatchOk(sender, req)
    ensures Contiguous(req.entries, req.prevLogIndex)
  {
  }

  /** The receiver on the representation is the splice on the complete log; a success means the
      whole batch is there, or that the batch was an empty probe below the boundary. */
  lemma BatchLands(reigns: Reigns, t: int, full: Log, log: LogState, req: AppendRequest, writes: nat)
    requires t in reigns && Grounded(reigns, full) && Grounded(reigns, reigns[t].log)
             && (forall w :: w in reigns ==> w >= 1)
    requires Represents(log, full) && BatchOk(reigns[t].log, req) && WellIndexed(reigns[t].log)
    ensures var r := AppendEntries(log, req.prevLogIndex, req.prevLogTerm, req.entries, writes);
            var full' := FullAfterAppend(full, log, req, writes);
            && Represents(r.log, full') && r.log.lastIncludedIndex == log.lastIncludedIndex
            && (full' == full || full' <= reigns[t].log)
            && (r.ok ==> if log.lastIncludedIndex <= req.prevLogIndex
                         then 0 <= r.matchIndex <= |reigns[t].log| && reigns[t].log[..r.matchIndex] <= full'
                         else r.matchIndex == req.prevLogIndex)
  {
    var sender := reigns[t].log;
    var prev := req.prevLogIndex;
    LastAgrees(log, full);
    BatchIsContiguous(sender, req);
    if prev < log.lastIncludedIndex {
      BelowBoundaryRefused(log, full, prev, req.entries, writes);
    } else {
      AccessorsAgree(log, full, prev);
      if Passes(full, log, req) {
        PassedBatchContinues(reigns, t, full, log, req);
        PassedBatchLands(sender, full, log, req, writes);
      }
    }
  }

  lemma PassedBatchLands(sender: Log, full: Log, log: LogState, req: AppendRequest, writes: nat)
    requires Represents(log, full) && Passes(full, log, req) && Contiguous(req.entries, req.prevLogIndex)
    requires Continues(full, req.prevLogIndex, req.entries, sender) && log.LastIndex() == |full|
    ensures var r := AppendEntries(log, req.prevLogIndex, req.prevLogTerm, req.entries, writes);
            var full' := Splice(full, req.prevLogIndex, req.entries, writes);
            && Represents(r.log, full') && r.log.lastIncludedIndex == log.lastIncludedIndex
            && (full' == full || full' <= sender)
            && (r.ok ==> r.matchIndex == req.prevLogIndex + |req.entries| <= |sender|
                         && sender[..r.matchIndex] <= full')
  {
    hide Represents, Continues, Splice, SpliceEntries, Agreeing;
    SpliceIsRight(log, full, req.prevLogIndex, req.entries, writes);
    SpliceKeepsBase(log, req.entries, writes);
    SpliceFollowsSender(full, req.prevLogIndex, req.entries, writes, sender);
    ContinuesBounds(full, req.prevLogIndex, req.entries, sender);
  }

  lemma ContinuesBounds(full: Log, prev: nat, es: seq<LogEntry>, sender: Log)
    requires Continues(full, prev, es, sender)
    ensures prev <= |full| && prev + |es| <= |sender|
  {
  }

  lemma SpliceIsRight(s: LogState, full: Log, prev: nat, es: seq<LogEntry>, writes: nat)
    requires Represents(s, full) && Contiguous(es, prev) && s.lastIncludedIndex <= prev <= |full|
    ensures var r := SpliceEntries(s, es, writes);
            Represents(r.log, Splice(full, prev, es, writes)) && (r.ok <==> |es| - Agreeing(full, prev, es) <= writes)
  {
    SpliceRefines(s, full, prev, es, writes);
  }

  lemma BatchKeepsShared(reigns: Reigns, t: int, full: Log, log: LogState, req: AppendRequest, writes: nat, shared: Log)
    requires t in reigns && Grounded(reigns, full) && Grounded(reigns, reigns[t].log)
             && (forall w :: w in reigns ==> w >= 1)
    requires Represents(log, full) && BatchOk(reigns[t].log, req)
    requires shared <= full && shared <= reigns[t].log
    ensures shared <= FullAfterAppend(full, log, req, writes)
  {
    if Passes(full, log, req) {
      PassedBatchContinues(reigns, t, full, log, req);
      SpliceKeepsShared(full, req.prevLogIndex, req.entries, writes, reigns[t].log, shared);
    }
  }

  // ---- Replacing one's log by one that keeps what is shared with the leader ----

  lemma GroundedPrefix(reigns: Reigns, log: Log, part: Log, bound: int)
    requires Grounded(reigns, log) && TermsBelow(log, bound) && part <= log
    ensures Grounded(reigns, part) && TermsBelow(part, bound)
  {
    forall p | 0 <= p < |part|
      ensures part[p].term in reigns && part[..p + 1] <= reigns[part[p].term].log && part[p].term < bound
    {
      assert part[p] == log[p] && part[..p + 1] == log[..p + 1];
    }
  }

  /** The new log keeps every prefix the old one shared with the leader of term t. */
  ghost predicate KeepsShared(full: Log, leader: Log, full': Log) {
    forall k :: 0 <= k <= |full| && full[..k] <= leader ==> full[..k] <= full'
  }

  lemma KeepsAcked(reigns: Reigns, acks: Acks, i: int, t: int, full: Log, full': Log)
    requires KeepsOk(reigns, acks, i, t, full) && t in reigns && AcksOk(reigns, acks) && reigns[t].init <= reigns[t].log
    requires KeepsShared(full, reigns[t].log, full')
    ensures KeepsOk(reigns, acks, i, t, full')
  {
    forall u, k | (i, u) in acks && 0 <= k <= acks[(i, u)]
      ensures StillHolds(reigns, u, k, t, full')
    {
      assert StillHolds(reigns, u, k, t, full);
      SharedCarries(reigns, u, k, t, full, full');
    }
  }

  lemma SharedCarries(reigns: Reigns, u: int, k: int, t: int, full: Log, full': Log)
    requires Carries(reigns, u, k, t + 1, full) && t in reigns && u in reigns && u <= t && 0 <= k <= |reigns[u].log|
    requires reigns[t].init <= reigns[t].log && KeepsShared(full, reigns[t].log, full')
    ensures Carries(reigns, u, k, t + 1, full')
  {
    var part := Stored(reigns, u, k);
    if Unbroken(reigns, part, u, t + 1) {
      assert part <= reigns[t].log;
      assert part == full[..|part|];
    }
  }

  lemma KeepsAckedMore(reigns: Reigns, acks: Acks, i: int, t: int, full: Log, m: int)
    requires KeepsOk(reigns, acks, i, t, full) && t in reigns && 0 <= m <= |reigns[t].log| && reigns[t].log[..m] <= full
    ensures KeepsOk(reigns, Raise(acks, i, t, m), i, t, full)
  {
    var acks' := Raise(acks, i, t, m);
    forall u, k | (i, u) in acks' && 0 <= k <= acks'[(i, u)]
      ensures StillHolds(reigns, u, k, t, full)
    {
      if u == t && k <= m {
        assert Stored(reigns, u, k) <= reigns[t].log[..m];
      } else {
        assert StillHolds(reigns, u, k, t, full);
      }
    }
  }

  lemma CommitKept(ttl: int, reigns: Reigns, commits: Commits, t: int, full: Log, full': Log, base: int, applied: int,
                   commitIndex: int,
                   machine: Machine, snapshot: Option<Snapshot>)
    requires CommitOk(reigns, commits, full, t, base, applied, commitIndex)
    requires MachineOk(ttl, full, base, applied, machine, snapshot)
    requires full[..commitIndex] <= full'
    ensures CommitOk(reigns, commits, full', t, base, applied, commitIndex)
    ensures MachineOk(ttl, full', base, applied, machine, snapshot)
  {
    assert full'[..commitIndex] == full[..commitIndex];
    assert full'[..applied] == full[..applied];
    assert full'[..base] == full[..base];
    assert base > 0 ==> full'[base - 1] == full[base - 1];
  }

  lemma CommitMoves(reigns: Reigns, commits: Commits, t: int, full: Log, base: int, applied: int, commitIndex: int,
                    more: int, leaderCommit: int)
    requires CommitOk(reigns, commits, full, t, base, applied, commitIndex) && t in reigns
    requires 0 <= leaderCommit <= |reigns[t].log| && CommittedBy(reigns, commits, reigns[t].log[..leaderCommit], t)
    requires commitIndex < more <= leaderCommit && reigns[t].log[..more] <= full
    ensures CommitOk(reigns, commits, full, t, base, applied, more)
  {
    CommittedByPrefix(reigns, commits, reigns[t].log[..leaderCommit], t, more);
    assert full[..more] == reigns[t].log[..leaderCommit][..more];
  }

  // ---- The history of an acknowledgement ----

  function WithLog(h: History, i: int, full: Log, acks: Acks): History
    requires i in h.full
  {
    h.(full := h.full[i := full], acks := acks)
  }

  lemma LogExtends(h: History, i: int, t: int, m: int, full: Log, success: bool)
    requires i in h.full
    ensures Extends(h, WithLog(h, i, full, if success then Raise(h.acks, i, t, m) else h.acks), i)
  {
    hide SeenGrows, VotesGrow, BidsGrow, ReignsGrow, ReignsOf, CommitsGrow, AdmittedGrows;
    ExtendsSelf(h, i);
    assert h.full[i := full].Keys == h.full.Keys;
  }

  lemma AckHistory(c: Configuration, h: History, i: int, t: int, m: int, full: Log, success: bool)
    requires HistoryOk(c, h) && i in h.full && t in h.reigns
    requires success ==> 0 <= m <= |h.reigns[t].log|
    requires forall u :: (i, u) in h.votes ==> u <= t
    ensures var h' := WithLog(h, i, full, if success then Raise(h.acks, i, t, m) else h.acks);
            HistoryOk(c, h') && Extends(h, h', i)
  {
    hide LedgerOk, SeenOk, PollsOk, ReadsOk, WrittenOk, ReleasedOk, Extends;
    var h' := WithLog(h, i, full, if success then Raise(h.acks, i, t, m) else h.acks);
    LogExtends(h, i, t, m, full, success);
    if success && h'.acks != h.acks {
      AckAdded(c, h.votes, h.bids, h.reigns, h.acks, h.commits, i, t, m);
    }
    HistoryGrows(c, h, h', i);
  }

  /** A reply in the leader's own term is evidence for every read it can still confirm. */
  lemma ReplyIsEvidence(c: Configuration, h: History, i: int, t: int, round: int)
    requires HistoryOk(c, h) && i in h.seen && h.seen[i] == t && t in h.reigns && round <= h.reigns[t].rounds
    ensures Evidence(h.reigns, h.admitted, t, i, round)
  {
    forall read | read in h.admitted && read.term == t && read.barrier < round
      ensures i in read.terms && read.terms[i] <= t
    {
      assert ReadOk(h.reigns, h.commits, h.seen, read);
    }
  }

  // ---- The receiver ----

  /** What storing a batch needs to know about the member and the sender's term. */
  ghost predicate Receiving(c: Configuration, ttl: int, h: History, i: int, n: Node, t: int) {
    && HistoryOk(c, h) && NodeOk(c, ttl, h, i, n) && n.raft.role == Follower && n.raft.Term() == t && t in h.reigns
    && i in h.full
  }

  lemma ReceivingFacts(c: Configuration, ttl: int, h: History, i: int, n: Node, t: int)
    requires Receiving(c, ttl, h, i, n, t)
    ensures var full := h.full[i];
            && Grounded(h.reigns, full) && TermsBelow(full, t + 1) && Represents(n.log, full)
            && KeepsOk(h.reigns, h.acks, i, t, full)
            && Grounded(h.reigns, h.reigns[t].log) && WellIndexed(h.reigns[t].log) && TermsBelow(h.reigns[t].log, t + 1)
            && (forall w :: w in h.reigns ==> w >= 1) && AcksOk(h.reigns, h.acks) && h.reigns[t].init <= h.reigns[t].log
            && CommitOk(h.reigns, h.commits, full, t, n.log.lastIncludedIndex, n.raft.lastApplied, n.raft.commitIndex)
            && MachineOk(ttl, full, n.log.lastIncludedIndex, n.raft.lastApplied, n.machine, n.snapshot)
            && (forall u :: (i, u) in h.votes ==> u <= t) && i in h.seen && h.seen[i] == t
            && LedgerOk(c, h.votes, h.bids, h.reigns, h.acks, h.commits)
  {
    GroundedByReign(c, h, t);
    LedgerCommits(c, h);
  }

  lemma CommittedInLeader(c: Configuration, ttl: int, h: History, i: int, n: Node, t: int)
    requires Receiving(c, ttl, h, i, n, t)
    ensures 0 <= n.log.lastIncludedIndex <= n.raft.commitIndex <= |h.full[i]|
            && h.full[i][..n.raft.commitIndex] <= h.reigns[t].log
  {
    ReceivingFacts(c, ttl, h, i, n, t);
    hide LedgerOk, HistoryOk, NodeOk, Grounded, TermsBelow, Represents, KeepsOk, AcksOk, MachineOk, CommittedBy;
    LeaderHasCommitted(c, h.votes, h.bids, h.reigns, h.acks, h.commits, h.full[i][..n.raft.commitIndex], t);
  }

  /** The storage half of a member whose log was replaced by one that keeps what it shared with the leader. */
  lemma ReplacedStore(c: Configuration, ttl: int, h: History, i: int, n: Node, t: int, full': Log)
    requires Receiving(c, ttl, h, i, n, t) && KeepsShared(h.full[i], h.reigns[t].log, full')
    ensures KeepsOk(h.reigns, h.acks, i, t, full')
    ensures CommitOk(h.reigns, h.commits, full', t, n.log.lastIncludedIndex, n.raft.lastApplied, n.raft.commitIndex)
    ensures MachineOk(ttl, full', n.log.lastIncludedIndex, n.raft.lastApplied, n.machine, n.snapshot)
    ensures h.full[i][..n.raft.commitIndex] <= full'
  {
    hide LedgerOk, HistoryOk, NodeOk, Grounded, TermsBelow, Represents, KeepsOk, AcksOk, MachineOk, CommitOk;
    ReceivingFacts(c, ttl, h, i, n, t);
    CommittedInLeader(c, ttl, h, i, n, t);
    KeepsAcked(h.reigns, h.acks, i, t, h.full[i], full');
    CommitKept(ttl, h.reigns, h.commits, t, h.full[i], full', n.log.lastIncludedIndex, n.raft.lastApplied,
               n.raft.commitIndex, n.machine, n.snapshot);
  }

  lemma BatchKeeps(c: Configuration, ttl: int, h: History, i: int, n: Node, req: AppendRequest, writes: nat)
    requires Receiving(c, ttl, h, i, n, req.term) && BatchOk(h.reigns[req.term].log, req)
    ensures KeepsShared(h.full[i], h.reigns[req.term].log, FullAfterAppend(h.full[i], n.log, req, writes))
  {
    hide LedgerOk, HistoryOk, NodeOk, Grounded, TermsBelow, Represents, KeepsOk, AcksOk, MachineOk, CommitOk, BatchOk,
         FullAfterAppend;
    ReceivingFacts(c, ttl, h, i, n, req.term);
    var full := h.full[i];
    forall k | 0 <= k <= |full| && full[..k] <= h.reigns[req.term].log
      ensures full[..k] <= FullAfterAppend(full, n.log, req, writes)
    {
      BatchKeepsShared(h.reigns, req.term, full, n.log, req, writes, full[..k]);
    }
  }

  /** After a batch: the log is right, and on success the leader's log up to the match index is in it. */
  lemma BatchStored(c: Configuration, ttl: int, h: History, i: int, n: Node, req: AppendRequest, writes: nat)
    requires Receiving(c, ttl, h, i, n, req.term) && BatchOk(h.reigns[req.term].log, req)
    ensures var r := AppendEntries(n.log, req.prevLogIndex, req.prevLogTerm, req.entries, writes);
            var full' := FullAfterAppend(h.full[i], n.log, req, writes);
            && LogOk(h.reigns, full', r.log, req.term) && r.log.lastIncludedIndex == n.log.lastIncludedIndex
            && (r.ok ==> 0 <= r.matchIndex <= |h.reigns[req.term].log|
                         && h.reigns[req.term].log[..r.matchIndex] <= full')
  {
    hide LedgerOk, HistoryOk, NodeOk, Grounded, TermsBelow, Represents, KeepsOk, AcksOk, MachineOk, CommitOk,
         FullAfterAppend, AppendEntries;
    ReceivingFacts(c, ttl, h, i, n, req.term);
    var full := h.full[i];
    var leader := h.reigns[req.term].log;
    var full' := FullAfterAppend(full, n.log, req, writes);
    var r := AppendEntries(n.log, req.prevLogIndex, req.prevLogTerm, req.entries, writes);
    BatchLands(h.reigns, req.term, full, n.log, req, writes);
    if full' != full {
      GroundedPrefix(h.reigns, leader, full', req.term + 1);
    }
    if r.ok && req.prevLogIndex < n.log.lastIncludedIndex {
      BatchKeeps(c, ttl, h, i, n, req, writes);
      CommittedInLeader(c, ttl, h, i, n, req.term);
      ReplacedStore(c, ttl, h, i, n, req.term, full');
      assert leader[..r.matchIndex] == full[..n.raft.commitIndex][..r.matchIndex];
    }
  }

  /** FollowCommit moves only over entries the leader has committed and this member now holds. */
  lemma CommitFollows(reigns: Reigns, commits: Commits, t: int, full: Log, base: int, r: Raft, leaderCommit: int,
                      matched: int)
    requires CommitOk(reigns, commits, full, t, base, r.lastApplied, r.commitIndex) && t in reigns
    requires 0 <= leaderCommit <= |reigns[t].log| && CommittedBy(reigns, commits, reigns[t].log[..leaderCommit], t)
    requires 0 <= matched <= |reigns[t].log| && reigns[t].log[..matched] <= full
    ensures CommitOk(reigns, commits, full, t, base, r.lastApplied, r.FollowCommit(leaderCommit, matched).commitIndex)
  {
    var bound := if matched < leaderCommit then matched else leaderCommit;
    if bound > r.commitIndex {
      assert reigns[t].log[..bound] <= reigns[t].log[..matched];
      CommitMoves(reigns, commits, t, full, base, r.lastApplied, r.commitIndex, bound, leaderCommit);
    }
  }

  /** The member after the receiver: only storage, commit index and acknowledgement changed. */
  lemma LandedNode(c: Configuration, ttl: int, h: History, i: int, n: Node, t: int, full': Log, log': LogState,
                   r': Raft, acks': Acks,
                   machine': Machine, snapshot': Option<Snapshot>)
    requires Receiving(c, ttl, h, i, n, t)
    requires r' == n.raft.(commitIndex := r'.commitIndex, lastApplied := r'.lastApplied)
    requires LogOk(h.reigns, full', log', t) && KeepsOk(h.reigns, acks', i, t, full')
    requires CommitOk(h.reigns, h.commits, full', t, log'.lastIncludedIndex, r'.lastApplied, r'.commitIndex)
    requires MachineOk(ttl, full', log'.lastIncludedIndex, r'.lastApplied, machine', snapshot')
    ensures NodeOk(c, ttl, WithLog(h, i, full', acks'), i,
                   n.(raft := r', log := log', machine := machine', snapshot := snapshot'))
  {
    hide LogOk, KeepsOk, CommitOk, MachineOk, BallotOk, ClientsOk, PollingOk;
  }

  lemma BatchOkFor(c: Configuration, ttl: int, h: History, i: int, n: Node, req: AppendRequest, writes: nat)
    requires Receiving(c, ttl, h, i, n, req.term) && AppendReqOk(h.reigns, h.commits, req)
    ensures var r := AppendEntries(n.log, req.prevLogIndex, req.prevLogTerm, req.entries, writes);
            var full' := FullAfterAppend(h.full[i], n.log, req, writes);
            var acks' := if r.ok then Raise(h.acks, i, req.term, r.matchIndex) else h.acks;
            var raft' := if r.ok then n.raft.FollowCommit(req.leaderCommit, r.matchIndex) else n.raft;
            var h' := WithLog(h, i, full', acks');
            && HistoryOk(c, h') && Extends(h, h', i) && NodeOk(c, ttl, h', i, n.(raft := raft', log := r.log))
            && (r.ok ==> (i, req.term) in acks' && r.matchIndex <= acks'[(i, req.term)])
  {
    hide HistoryOk, NodeOk, LedgerOk, Extends, Grounded, TermsBelow, Represents, KeepsOk, AcksOk, MachineOk, CommitOk,
         LogOk, FullAfterAppend, AppendEntries, BatchOk, KeepsShared, CommittedBy;
    var t := req.term;
    var full' := FullAfterAppend(h.full[i], n.log, req, writes);
    var r := AppendEntries(n.log, req.prevLogIndex, req.prevLogTerm, req.entries, writes);
    var acks' := if r.ok then Raise(h.acks, i, t, r.matchIndex) else h.acks;
    var raft' := if r.ok then n.raft.FollowCommit(req.leaderCommit, r.matchIndex) else n.raft;
    ReceivingFacts(c, ttl, h, i, n, t);
    BatchKeeps(c, ttl, h, i, n, req, writes);
    ReplacedStore(c, ttl, h, i, n, t, full');
    BatchStored(c, ttl, h, i, n, req, writes);
    AckHistory(c, h, i, t, r.matchIndex, full', r.ok);
    if r.ok {
      KeepsAckedMore(h.reigns, h.acks, i, t, full', r.matchIndex);
      CommitFollows(h.reigns, h.commits, t, full', n.log.lastIncludedIndex, n.raft, req.leaderCommit, r.matchIndex);
    }
    LandedNode(c, ttl, h, i, n, t, full', r.log, raft', acks', n.machine, n.snapshot);
  }
}
