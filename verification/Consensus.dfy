/** One member's consensus state and its transitions (internal/raft/node.go), as functions
    from a state and a request to the next state and a reply. Timing becomes the flag
    `sticky`, the outcome of a durable write the value `io`. */
module Consensus {
  import opened Membership
  import opened Store
  import opened RaftLog

  datatype Role = Follower | Candidate | Leader

  const NOBODY := -1

  /** What must survive a restart. */
  datatype Persistent = Persistent(term: int, votedFor: int)

  /** A save succeeds, or fails with the record possibly on disk all the same. */
  datatype Disk = Durable | Failed(reached: bool)

  datatype VoteRequest = VoteRequest(term: int, candidateID: int, lastLogIndex: int, lastLogTerm: int)
  datatype VoteResponse = VoteResponse(term: int, granted: bool)
  datatype AppendRequest = AppendRequest(term: int, leaderID: int, prevLogIndex: int, prevLogTerm: int,
                                         entries: seq<LogEntry>, leaderCommit: int)
  datatype AppendResponse = AppendResponse(term: int, success: bool, matchIndex: int, conflictTerm: int,
                                           conflictIndex: int)
  datatype Snapshot = Snapshot(index: int, term: int, state: Machine)
  datatype SnapshotRequest = SnapshotRequest(term: int, leaderID: int, snapshot: Snapshot)
  datatype SnapshotResponse = SnapshotResponse(term: int, success: bool)

  /** Section 5.4.1 of the Raft paper: at least as up to date. */
  predicate UpToDate(candTerm: int, candIndex: int, voterTerm: int, voterIndex: int) {
    if candTerm != voterTerm then candTerm > voterTerm else candIndex >= voterIndex
  }

  /** The same value for every key, and zero, what reading an absent key yields, for any other. */
  function Uniform(keys: set<int>, v: int): map<int, int> {
    map k | k in keys :: if k in keys then v else 0
  }

  /** `disk` is the record on stable storage, equal to `persistent` unless a save failed. */
  datatype Raft = Raft(id: int, config: Configuration, role: Role, leaderID: int,
                       commitIndex: int, lastApplied: int, votesFrom: set<int>,
                       nextIndex: map<int, int>, matchIndex: map<int, int>,
                       persistent: Persistent, disk: Persistent) {

    function Term(): int {
      persistent.term
    }

    /** commitPersistentLocked: durable first, adopted second; no write when nothing changes. */
    function Save(next: Persistent, io: Disk): (Raft, bool) {
      if next == persistent then (this, true)
      else match io
        case Durable => (this.(persistent := next, disk := next), true)
        case Failed(reached) => (if reached then this.(disk := next) else this, false)
    }

    function BecomeFollower(term: int, leader: int, io: Disk): (Raft, bool) {
      var next := if term > persistent.term then Persistent(term, NOBODY) else persistent;
      var (n, ok) := Save(next, io);
      if ok then (n.(role := Follower, leaderID := leader), true) else (n, false)
    }

    function BecomeCandidate(io: Disk): (Raft, bool) {
      var (n, ok) := Save(Persistent(persistent.term + 1, id), io);
      if ok then (n.(role := Candidate, leaderID := 0, votesFrom := {id}), true) else (n, false)
    }

    function RecordVote(voter: int, voteTerm: int): (Raft, bool) {
      if role != Candidate || voteTerm != persistent.term then (this, false)
      else
        var n := this.(votesFrom := votesFrom + {voter});
        (n, config.HasQuorum(n.votesFrom))
    }

    function BecomeLeader(electionTerm: int, lastLogIndex: int): (Raft, bool) {
      if role != Candidate || persistent.term != electionTerm then (this, false)
      else
        var peers := config.Peers(id).Keys;
        (this.(role := Leader, leaderID := id,
               nextIndex := Uniform(peers, lastLogIndex + 1), matchIndex := Uniform(peers, 0)), true)
    }

    function HandleRequestVote(req: VoteRequest, myLastIndex: int, myLastTerm: int, sticky: bool, io: Disk)
      : (Raft, VoteResponse)
    {
      if req.term < persistent.term then (this, VoteResponse(persistent.term, false))
      else if leaderID != 0 && sticky then (this, VoteResponse(persistent.term, false))
      else
        var stepsUp := req.term > persistent.term;
        var base := if stepsUp then Persistent(req.term, NOBODY) else persistent;
        var grant := (base.votedFor == NOBODY || base.votedFor == req.candidateID)
                     && UpToDate(req.lastLogTerm, req.lastLogIndex, myLastTerm, myLastIndex);
        var next := if grant then base.(votedFor := req.candidateID) else base;
        var (n, ok) := Save(next, io);
        if !ok then (n, VoteResponse(n.persistent.term, false))
        else
          var n' := if stepsUp then n.(role := Follower, leaderID := 0) else n;
          (n', VoteResponse(n'.persistent.term, grant))
    }

    predicate HandlePreVote(req: VoteRequest, myLastIndex: int, myLastTerm: int, sticky: bool) {
      && !(leaderID != 0 && sticky)
      && req.term > persistent.term
      && UpToDate(req.lastLogTerm, req.lastLogIndex, myLastTerm, myLastIndex)
    }

    function FollowCommit(leaderCommit: int, matchIndex: int): Raft {
      var bound := if matchIndex < leaderCommit then matchIndex else leaderCommit;
      if bound > commitIndex then this.(commitIndex := bound) else this
    }

    /** Both receivers start by accepting a current or newer leader. */
    function Accept(term: int, leader: int, io: Disk): (Raft, bool) {
      if term > persistent.term || role != Follower then BecomeFollower(term, leader, io)
      else (this.(leaderID := leader), true)
    }

    function HandleAppendEntries(log: LogState, req: AppendRequest, io: Disk, writes: nat)
      : (Raft, LogState, AppendResponse)
    {
      if req.term < persistent.term then (this, log, AppendResponse(persistent.term, false, 0, 0, 0))
      else
        var (n, accepted) := Accept(req.term, req.leaderID, io);
        if !accepted then (n, log, AppendResponse(persistent.term, false, 0, 0, 0))
        else
          var r := AppendEntries(log, req.prevLogIndex, req.prevLogTerm, req.entries, writes);
          if !r.ok then (n, r.log, AppendResponse(n.persistent.term, false, 0, r.conflictTerm, r.conflictIndex))
          else (n.FollowCommit(req.leaderCommit, r.matchIndex), r.log,
                AppendResponse(n.persistent.term, true, r.matchIndex, 0, 0))
    }

    function Seed(index: int): Raft {
      this.(commitIndex := if index > commitIndex then index else commitIndex,
            lastApplied := if index > lastApplied then index else lastApplied)
    }

    function UpdatePeerProgress(peer: int, matched: int): Raft {
      if peer !in matchIndex then this
      else
        this.(matchIndex := if matched > matchIndex[peer] then matchIndex[peer := matched] else matchIndex,
              nextIndex := if matched + 1 > MatchOf(nextIndex, peer) then nextIndex[peer := matched + 1] else nextIndex)
    }

    function NextIndexFor(peer: int): int {
      if MatchOf(nextIndex, peer) < 1 then 1 else nextIndex[peer]
    }

    function BacktrackNextIndex(peer: int, conflictIndex: int): Raft {
      this.(nextIndex := nextIndex[peer := Backtracked(MatchOf(nextIndex, peer), conflictIndex)])
    }

    /** The index the quorum rule looks at: the leader vouches for its own log. */
    ghost function QuorumCandidate(localLatest: int): int
      requires config.voters != map[]
    {
      Frontier(config, matchIndex[id := localLatest])
    }

    /** Commit only up to a quorum index that is itself an entry of the current term. */
    ghost function AdvanceCommitIndex(log: LogState, currentTerm: int): Raft
      requires config.voters != map[]
    {
      var q := QuorumCandidate(log.LastIndex());
      if role == Leader && q > commitIndex && log.TermAt(q) == currentTerm then this.(commitIndex := q) else this
    }
  }

  function Backtracked(current: int, conflictIndex: int): int {
    var next := if 0 < conflictIndex < current then conflictIndex else current - 1;
    if next < 1 then 1 else next
  }

  /** A poll says yes exactly when the real request, for a term still ahead, would be granted. */
  lemma PollPredictsVote(r: Raft, req: VoteRequest, lastIndex: int, lastTerm: int, sticky: bool)
    ensures r.HandlePreVote(req, lastIndex, lastTerm, sticky)
            <==> req.term > r.Term() && r.HandleRequestVote(req, lastIndex, lastTerm, sticky, Durable).1.granted
  {
    var next := Persistent(req.term, req.candidateID);
    if req.term > r.Term() {
      assert next != r.persistent;
    }
  }

  // ---- Snapshot installation ----

  datatype Install = RestoreFails | PersistFails | Completes

  datatype Installed = Installed(raft: Raft, log: LogState, machine: Machine, snapshot: Option<Snapshot>,
                                 reply: SnapshotResponse)

  function HandleInstallSnapshot(n: Raft, log: LogState, machine: Machine, snapshot: Option<Snapshot>,
                                 req: SnapshotRequest, io: Disk, install: Install): Installed {
    if req.term < n.Term() then Installed(n, log, machine, snapshot, SnapshotResponse(n.Term(), false))
    else
      var (m, accepted) := n.Accept(req.term, req.leaderID, io);
      if !accepted then Installed(m, log, machine, snapshot, SnapshotResponse(n.Term(), false))
      else if req.snapshot.index <= log.firstIndex - 1 then
        Installed(m, log, machine, snapshot, SnapshotResponse(m.Term(), true))
      else match install
        case RestoreFails => Installed(m, log, machine, snapshot, SnapshotResponse(m.Term(), false))
        case PersistFails => Installed(m, log, req.snapshot.state, snapshot, SnapshotResponse(m.Term(), false))
        case Completes =>
          Installed(m.Seed(req.snapshot.index), log.ResetToSnapshot(req.snapshot.index, req.snapshot.term),
                    req.snapshot.state, Some(req.snapshot), SnapshotResponse(m.Term(), true))
  }
}
