/** What the acting member keeps when it only changes its ballot, its role or its clients. */
module Frames {
  import opened Membership
  import opened Consensus
  import opened Ledger
  import opened Cluster
  import opened Invariant

  // ---- The ledger outside elections and replication ----

  lemma ReadsGrow(a: Reigns, b: Reigns, cs: Commits, ds: Commits, seen: map<int, int>, seen': map<int, int>,
                  admitted: set<Read>)
    requires ReadsOk(a, cs, seen, admitted) && ReignsGrow(a, b) && (forall k :: k in cs ==> k in ds)
    requires seen'.Keys == seen.Keys && (forall v :: v in seen ==> seen[v] <= seen'[v])
    ensures ReadsOk(b, ds, seen', admitted)
  {
    forall read | read in admitted
      ensures ReadOk(b, ds, seen', read)
    {
      assert ReadOk(a, cs, seen, read);
      assert forall v :: v in seen' ==> v in seen;
    }
  }

  lemma WrittenGrows(c: Configuration, a: Reigns, b: Reigns, acks: Acks, cs: Commits, ds: Commits, written: set<Waiter>)
    requires WrittenOk(a, cs, written) && CommitsOk(c, a, acks, cs) && ReignsGrow(a, b)
             && (forall k :: k in cs ==> k in ds)
    ensures WrittenOk(b, ds, written)
  {
    forall w | w in written
      ensures EntryAt(b, w) && CommittedBy(b, ds, Stored(b, w.term, w.index), w.term)
    {
      assert EntryAt(a, w);
      CommittedStays(c, a, b, acks, cs, ds, Stored(a, w.term, w.index), w.term);
      StoredGrows(a, b, w.term, w.index);
    }
  }

  /** A step that admits, releases and answers nothing keeps the rest of the history right. */
  lemma HistoryGrows(c: Configuration, h: History, h': History, i: int)
    requires HistoryOk(c, h) && Extends(h, h', i)
    requires h'.admitted == h.admitted && h'.released == h.released && h'.written == h.written
    requires LedgerOk(c, h'.votes, h'.bids, h'.reigns, h'.acks, h'.commits)
    requires SeenOk(h'.votes, h'.bids, h'.seen) && PollsOk(c, h'.grants, h'.polls)
    ensures HistoryOk(c, h')
  {
    ReadsGrow(h.reigns, h'.reigns, h.commits, h'.commits, h.seen, h'.seen, h.admitted);
    WrittenGrows(c, h.reigns, h'.reigns, h.acks, h.commits, h'.commits, h.written);
  }

  lemma SeenRaised(c: Configuration, h: History, i: int, t: int)
    requires HistoryOk(c, h) && i in h.seen && h.seen[i] <= t
    ensures HistoryOk(c, h.(seen := h.seen[i := t])) && Extends(h, h.(seen := h.seen[i := t]), i)
  {
    var h' := h.(seen := h.seen[i := t]);
    assert h'.seen.Keys == h.seen.Keys;
    HistoryGrows(c, h, h', i);
  }

  lemma SameSeen(h: History, i: int)
    requires i in h.seen
    ensures h.(seen := h.seen[i := h.seen[i]]) == h
  {
    assert h.seen[i := h.seen[i]] == h.seen;
  }

  // ---- Ballots ----

  /** A record a member may replace its own with: a newer term, or its first vote in this one. */
  predicate Replaces(mem: Persistent, next: Persistent) {
    next == mem || next.term > mem.term || (next.term == mem.term && mem.votedFor == NOBODY)
  }

  /** Recorded votes name real candidates. */
  ghost predicate RealVotes(votes: Votes) {
    forall v, t :: (v, t) in votes ==> votes[(v, t)].candidate != NOBODY
  }

  lemma VotesAreReal(c: Configuration, h: History)
    requires HistoryOk(c, h)
    ensures RealVotes(h.votes)
  {
    forall v, t | (v, t) in h.votes
      ensures h.votes[(v, t)].candidate != NOBODY
    {
      assert (h.votes[(v, t)].candidate, t) in h.bids;
    }
  }

  lemma BallotReplaced(votes: Votes, bids: Bids, i: int, mem: Persistent, disk: Persistent, next: Persistent)
    requires BallotOk(votes, bids, i, mem, disk) && RealVotes(votes) && Replaces(mem, next)
    ensures BallotOk(votes, bids, i, mem, next) && BallotOk(votes, bids, i, next, next)
  {
  }

  /** Saving a replacement, whether it succeeds, fails, or fails with the record on disk. */
  lemma SavedBallot(votes: Votes, bids: Bids, i: int, r: Raft, next: Persistent, io: Disk)
    requires BallotOk(votes, bids, i, r.persistent, r.disk) && RealVotes(votes) && Replaces(r.persistent, next)
    ensures var (r', ok) := r.Save(next, io);
            && BallotOk(votes, bids, i, r'.persistent, r'.disk)
            && r'.persistent == (if ok then next else r.persistent)
            && (r'.disk == r.disk || r'.disk == next)
  {
    BallotReplaced(votes, bids, i, r.persistent, r.disk, next);
  }

  // ---- The member ----

  /** Clients dropped, a poll abandoned: nothing else about the engine changes. */
  ghost predicate EngineLess(e: Engine, e': Engine) {
    && e'.waiters <= e.waiters && e'.pending <= e.pending
    && (e'.preVoteTerm == 0 || (e'.preVoteTerm == e.preVoteTerm && e'.preVotes == e.preVotes))
    && e'.roundSeq == e.roundSeq && e'.noopIndex == e.noopIndex && e'.lastAck == e.lastAck
  }

  lemma EngineShrinks(c: Configuration, ttl: int, h: History, i: int, n: Node, e: Engine)
    requires NodeOk(c, ttl, h, i, n) && EngineLess(n.engine, e)
    ensures NodeOk(c, ttl, h, i, n.(engine := e))
  {
  }

  lemma BallotFacts(c: Configuration, ttl: int, h: History, i: int, n: Node)
    requires NodeOk(c, ttl, h, i, n)
    ensures i in h.full && i in h.seen && h.seen[i] == n.raft.Term() >= 0
    ensures BallotOk(h.votes, h.bids, i, n.raft.persistent, n.raft.disk)
    ensures TermPolled(h.polls, n.raft.Term()) && TermPolled(h.polls, n.raft.disk.term)
  {
  }

  /** A save that failed changes at most the record on disk. */
  lemma FailedSave(c: Configuration, ttl: int, h: History, i: int, n: Node, r: Raft)
    requires NodeOk(c, ttl, h, i, n)
    requires r == n.raft.(disk := r.disk)
    requires BallotOk(h.votes, h.bids, i, r.persistent, r.disk) && TermPolled(h.polls, r.disk.term)
    ensures NodeOk(c, ttl, h, i, n.(raft := r))
  {
  }

  lemma KeepsLonger(reigns: Reigns, acks: Acks, i: int, term: int, later: int, full: Log)
    requires KeepsOk(reigns, acks, i, term, full) && term <= later
    ensures KeepsOk(reigns, acks, i, later, full)
  {
    forall t, k | (i, t) in acks && 0 <= k <= acks[(i, t)]
      ensures StillHolds(reigns, t, k, later, full)
    {
      assert StillHolds(reigns, t, k, term, full);
      CarriesLonger(reigns, t, k, term + 1, later + 1, full);
    }
  }

  lemma CarriesLonger(reigns: Reigns, t: int, k: int, bound: int, later: int, full: Log)
    requires Carries(reigns, t, k, bound, full) && bound <= later
    ensures Carries(reigns, t, k, later, full)
  {
    if Unbroken(reigns, Stored(reigns, t, k), t, later) {
      assert Unbroken(reigns, Stored(reigns, t, k), t, bound);
    }
  }

  lemma CommittedLonger(reigns: Reigns, commits: Commits, log: Log, bound: int, later: int)
    requires CommittedBy(reigns, commits, log, bound) && bound <= later
    ensures CommittedBy(reigns, commits, log, later)
  {
  }

  /** A member that adopts a newer term, or yields in its own, as a follower. */
  lemma FollowerOk(c: Configuration, ttl: int, h: History, i: int, n: Node, r: Raft)
    requires NodeOk(c, ttl, h, i, n) && r.Term() >= n.raft.Term()
    requires r == n.raft.(role := Follower, leaderID := r.leaderID, persistent := r.persistent, disk := r.disk)
    requires BallotOk(h.votes, h.bids, i, r.persistent, r.disk)
    requires TermPolled(h.polls, r.Term()) && TermPolled(h.polls, r.disk.term)
    ensures NodeOk(c, ttl, h.(seen := h.seen[i := r.Term()]), i, n.(raft := r))
  {
    KeepsLonger(h.reigns, h.acks, i, n.raft.Term(), r.Term(), h.full[i]);
    CommittedLonger(h.reigns, h.commits, h.full[i][..r.commitIndex], n.raft.Term(), r.Term());
  }

  /** becomeFollowerLocked, for any term anyone has campaigned for. */
  lemma StepsDown(c: Configuration, ttl: int, h: History, i: int, n: Node, term: int, leader: int, io: Disk, e: Engine)
    requires HistoryOk(c, h) && NodeOk(c, ttl, h, i, n) && TermPolled(h.polls, term) && EngineLess(n.engine, e)
    ensures var r := n.raft.BecomeFollower(term, leader, io).0;
            StepOk(c, ttl, h, i, Effect(n.(raft := r, engine := e), {}, h.(seen := h.seen[i := r.Term()])))
  {
    var next := if term > n.raft.Term() then Persistent(term, NOBODY) else n.raft.persistent;
    var (r, ok) := n.raft.BecomeFollower(term, leader, io);
    hide HistoryOk, NodeOk, Extends;
    VotesAreReal(c, h);
    BallotFacts(c, ttl, h, i, n);
    SavedBallot(h.votes, h.bids, i, n.raft, next, io);
    SeenRaised(c, h, i, r.Term());
    var h' := h.(seen := h.seen[i := r.Term()]);
    if ok {
      FollowerOk(c, ttl, h, i, n, r);
    } else {
      FailedSave(c, ttl, h, i, n, r);
      assert h.seen[i := r.Term()] == h.seen;
    }
    EngineShrinks(c, ttl, h', i, n.(raft := r), e);
  }

  /** The receivers' shared opening: a current or newer leader is accepted. */
  lemma Accepts(c: Configuration, ttl: int, h: History, i: int, n: Node, term: int, leader: int, io: Disk)
    requires HistoryOk(c, h) && NodeOk(c, ttl, h, i, n) && TermPolled(h.polls, term) && term >= n.raft.Term()
    ensures var (r, ok) := n.raft.Accept(term, leader, io);
            && StepOk(c, ttl, h, i, Effect(n.(raft := r), {}, h.(seen := h.seen[i := r.Term()])))
            && (ok ==> r.role == Follower && r.Term() == term)
            && r.commitIndex == n.raft.commitIndex && r.lastApplied == n.raft.lastApplied
  {
    hide HistoryOk, NodeOk, Extends, BallotOk;
    BallotFacts(c, ttl, h, i, n);
    if term > n.raft.Term() || n.raft.role != Follower {
      StepsDown(c, ttl, h, i, n, term, leader, io, n.engine);
    } else {
      FollowerOk(c, ttl, h, i, n, n.raft.(leaderID := leader));
      SeenRaised(c, h, i, n.raft.Term());
    }
  }
}
