/** The node object itself: fields updated in place as in internal/raft/node.go. Each operation is
    proved against its function in `Consensus`; stickiness is computed from the contact clock. */
module NodeObject {
  import opened Sets
  import opened Membership
  import opened Store
  import DurableLog
  import opened Values = RaftLog
  import opened Consensus
  import opened LogRuns
  import opened Decisions

  /** The snapshot file. */
  class SnapshotFile {
    var stored: Option<Snapshot>

    constructor ()
      ensures stored == None
    {
      stored := None;
    }
  }

  lemma IsUniform(m: map<int, int>, keys: set<int>, v: int)
    requires m.Keys == keys && forall k :: k in m ==> m[k] == v
    ensures m == Uniform(keys, v)
  {
    var u := Uniform(keys, v);
    assert m.Keys == u.Keys;
    forall k | k in m
      ensures m[k] == u[k]
    {
    }
  }

  /** The loop that gives every peer the same starting progress. */
  method InitialProgress(peers: set<int>, v: int) returns (m: map<int, int>)
    ensures m == Uniform(peers, v)
  {
    m := map[];
    var rest := peers;
    while rest != {}
      invariant rest <= peers
      invariant m.Keys == peers - rest && forall p :: p in m ==> m[p] == v
      decreases rest
    {
      ghost var _ := Pick(rest);
      var pid :| pid in rest;
      m := m[pid := v];
      rest := rest - {pid};
    }
    IsUniform(m, peers, v);
  }

  class RaftNode {
    const nodeID: int
    const config: Configuration
    const minElectionTimeout: int
    var role: Role
    var leaderID: int
    var commitIndex: int
    var lastApplied: int
    var lastContact: int
    var votesFrom: set<int>
    var nextIndex: map<int, int>
    var matchIndex: map<int, int>
    var persistent: Persistent
    var disk: Persistent

    function State(): Raft
      reads this
    {
      Raft(nodeID, config, role, leaderID, commitIndex, lastApplied, votesFrom, nextIndex, matchIndex, persistent, disk)
    }

    /** A live leader was heard from within the minimum election timeout. */
    /** The request is not from the past, and no leader has been heard from within the timeout. */
    predicate Hears(req: VoteRequest, now: int)
      reads this
    {
      req.term >= persistent.term && (leaderID == 0 || now >= lastContact + minElectionTimeout)
    }

    predicate Sticky(now: int)
      reads this
    {
      now - lastContact < minElectionTimeout
    }

    constructor (id: int, c: Configuration, timeout: int, record: Persistent, initialRole: Role, now: int)
      ensures State() == Raft(id, c, initialRole, 0, 0, 0, {}, Uniform(c.Peers(id).Keys, 1),
                              Uniform(c.Peers(id).Keys, 0),
                              record, record)
      ensures minElectionTimeout == timeout && lastContact == now
    {
      nodeID, config, minElectionTimeout := id, c, timeout;
      role, leaderID, commitIndex, lastApplied, lastContact := initialRole, 0, 0, 0, now;
      votesFrom := {};
      persistent, disk := record, record;
      var next := InitialProgress(c.Peers(id).Keys, 1);
      var matched := InitialProgress(c.Peers(id).Keys, 0);
      nextIndex, matchIndex := next, matched;
    }

    method CommitPersistent(next: Persistent, io: Disk) returns (ok: bool)
      modifies this`persistent, this`disk
      ensures (State(), ok) == old(State()).Save(next, io)
    {
      if next == persistent {
        return true;
      }
      match io {
        case Failed(reached) =>
          if reached {
            disk := next;
          }
          return false;
        case Durable =>
          disk := next;
          persistent := next;
          return true;
      }
    }

    method BecomeFollower(term: int, leader: int, io: Disk) returns (ok: bool)
      modifies this`role, this`leaderID, this`persistent, this`disk
      ensures (State(), ok) == old(State()).BecomeFollower(term, leader, io)
    {
      var next := persistent;
      if term > next.term {
        next := Persistent(term, NOBODY);
      }
      ok := CommitPersistent(next, io);
      if ok {
        role, leaderID := Follower, leader;
      }
    }

    method BecomeCandidate(io: Disk, now: int) returns (ok: bool)
      modifies this
      ensures (State(), ok) == old(State()).BecomeCandidate(io)
      ensures lastContact == (if ok then now else old(lastContact))
    {
      ok := CommitPersistent(Persistent(persistent.term + 1, nodeID), io);
      if ok {
        role, leaderID, votesFrom, lastContact := Candidate, 0, {nodeID}, now;
      }
    }

    method RecordVoteAndCheckMajority(voter: int, voteTerm: int) returns (won: bool)
      modifies this`votesFrom
      ensures (State(), won) == old(State()).RecordVote(voter, voteTerm)
      ensures won <==> role == Candidate && voteTerm == persistent.term && config.HasQuorum(old(votesFrom) + {voter})
    {
      if role != Candidate || voteTerm != persistent.term {
        return false;
      }
      votesFrom := votesFrom + {voter};
      won := ComputeHasQuorum(config, votesFrom);
    }

    method BecomeLeader(electionTerm: int, lastLogIndex: int) returns (promoted: bool)
      modifies this`role, this`leaderID, this`nextIndex, this`matchIndex
      ensures (State(), promoted) == old(State()).BecomeLeader(electionTerm, lastLogIndex)
    {
      if role != Candidate || persistent.term != electionTerm {
        return false;
      }
      role, leaderID := Leader, nodeID;
      nextIndex := InitialProgress(config.Peers(nodeID).Keys, lastLogIndex + 1);
      matchIndex := InitialProgress(config.Peers(nodeID).Keys, 0);
      return true;
    }

    method HandleRequestVote(req: VoteRequest, rl: DurableLog.RaftLog, io: Disk, now: int) returns (resp: VoteResponse)
      modifies this
      ensures (State(), resp) == old(State()).HandleRequestVote(req, rl.State().LastIndex(), rl.State().LastTerm(),
                                                                old(Sticky(now)), io)
      ensures resp.granted <==> && old(Hears(req, now))
                                && (req.term > old(persistent.term)
                                    || old(persistent.votedFor) in {-1, req.candidateID})
                                && NotBehind(req, rl.State().LastIndex(), rl.State().LastTerm())
                                && (io.Durable? || old(persistent) == Persistent(req.term, req.candidateID))
      ensures lastContact == (if resp.granted then now else old(lastContact))
    {
      var myLastIndex, myLastTerm := rl.State().LastIndex(), rl.State().LastTerm();
      VoteGrantedExactlyWhen(State(), req, myLastIndex, myLastTerm, Sticky(now), io);
      if req.term < persistent.term {
        return VoteResponse(persistent.term, false);
      }
      if leaderID != 0 && Sticky(now) {
        return VoteResponse(persistent.term, false);
      }
      var next := persistent;
      var steppedUp := req.term > next.term;
      if steppedUp {
        next := Persistent(req.term, NOBODY);
      }
      var alreadyVoted := next.votedFor != NOBODY && next.votedFor != req.candidateID;
      var grant := !alreadyVoted && UpToDate(req.lastLogTerm, req.lastLogIndex, myLastTerm, myLastIndex);
      if grant {
        next := next.(votedFor := req.candidateID);
      }
      var ok := CommitPersistent(next, io);
      if !ok {
        return VoteResponse(persistent.term, false);
      }
      if steppedUp {
        role, leaderID := Follower, 0;
      }
      if !grant {
        return VoteResponse(persistent.term, false);
      }
      lastContact := now;
      return VoteResponse(persistent.term, true);
    }

    /** A question changes nothing: there is no modifies clause. */
    method HandlePreVote(req: VoteRequest, rl: DurableLog.RaftLog, now: int) returns (term: int, granted: bool)
      ensures term == State().Term()
      ensures granted == State().HandlePreVote(req, rl.State().LastIndex(), rl.State().LastTerm(), Sticky(now))
      ensures granted <==> && Hears(req, now) && req.term > persistent.term
                           && NotBehind(req, rl.State().LastIndex(), rl.State().LastTerm())
    {
      term := persistent.term;
      if leaderID != 0 && Sticky(now) {
        return term, false;
      }
      if req.term <= persistent.term {
        return term, false;
      }
      granted := UpToDate(req.lastLogTerm, req.lastLogIndex, rl.State().LastTerm(), rl.State().LastIndex());
    }

    method SetFollowerCommitIndex(leaderCommit: int, latest: int)
      modifies this`commitIndex
      ensures State() == old(State()).FollowCommit(leaderCommit, latest)
      ensures commitIndex == Max(old(commitIndex), Min(leaderCommit, latest))
    {
      var newCommit := leaderCommit;
      if latest < newCommit {
        newCommit := latest;
      }
      if newCommit > commitIndex {
        commitIndex := newCommit;
      }
    }

    method AcceptLeader(term: int, leader: int, io: Disk, now: int) returns (ok: bool)
      modifies this
      ensures (State(), ok) == old(State()).Accept(term, leader, io)
      ensures lastContact == (if ok then now else old(lastContact))
    {
      if term > persistent.term || role != Follower {
        ok := BecomeFollower(term, leader, io);
        if !ok {
          return;
        }
      } else {
        leaderID := leader;
      }
      lastContact := now;
      ok := true;
    }

    method HandleAppendEntries(rl: DurableLog.RaftLog, req: AppendRequest, io: Disk, writes: nat, rewrite: Disk,
                               now: int)
      returns (resp: AppendResponse, ghost taken: nat)
      modifies this, rl`cache, rl`nextIndex, rl`wal
      ensures taken <= writes && (rewrite.Durable? ==> taken == writes)
      ensures (State(), rl.State(), resp) == old(State()).HandleAppendEntries(old(rl.State()), req, io, taken)
      ensures lastContact == (if old(Accepted(State(), req.term, io)) then now else old(lastContact))
      ensures old(rl.Mirrored()) ==> rl.Mirrored() || (!resp.success && rewrite == Failed(false) && rl.cache < rl.wal)
    {
      taken := writes;
      var currentTerm := persistent.term;
      if req.term < currentTerm {
        return AppendResponse(currentTerm, false, 0, 0, 0), writes;
      }
      var ok := AcceptLeader(req.term, req.leaderID, io, now);
      if !ok {
        return AppendResponse(currentTerm, false, 0, 0, 0), writes;
      }
      currentTerm := persistent.term;
      var matched, conflictTerm, conflictIndex, spliced;
      matched, conflictTerm, conflictIndex, spliced, taken :=
        rl.AppendEntriesToLog(req.prevLogIndex, req.prevLogTerm, req.entries, writes, rewrite);
      if !spliced {
        return AppendResponse(currentTerm, false, 0, conflictTerm, conflictIndex), taken;
      }
      SetFollowerCommitIndex(req.leaderCommit, matched);
      return AppendResponse(currentTerm, true, matched, 0, 0), taken;
    }

    method SeedFromSnapshot(index: int)
      modifies this`commitIndex, this`lastApplied
      ensures State() == old(State()).Seed(index)
    {
      if index > commitIndex {
        commitIndex := index;
      }
      if index > lastApplied {
        lastApplied := index;
      }
    }

    /** Restore, persist, raise the boundaries, cut the log, in that order. A file that cannot be cut
        costs only the answer. */
    method HandleInstallSnapshot(rl: DurableLog.RaftLog, sm: MemoryStateMachine, file: SnapshotFile,
                                 req: SnapshotRequest, io: Disk, install: Install, cut: Disk, now: int)
      returns (resp: SnapshotResponse)
      modifies this, rl, sm`data, sm`sessions, sm`now, sm`appliesSinceSweep, file
      ensures old(rl.Mirrored()) && cut != Failed(false) ==> rl.Mirrored()
      ensures lastContact == (if old(Accepted(State(), req.term, io)) then now else old(lastContact))
      ensures var d := Consensus.HandleInstallSnapshot(old(State()), old(rl.State()), old(sm.State()),
                                                       old(file.stored), req, io, install);
              && Installed(State(), rl.State(), sm.State(), file.stored, d.reply) == d
              && resp.term == d.reply.term
              && (resp.success <==> d.reply.success && (cut.Durable? || rl.State() == old(rl.State())))
    {
      var currentTerm := persistent.term;
      if req.term < currentTerm {
        return SnapshotResponse(currentTerm, false);
      }
      var ok := AcceptLeader(req.term, req.leaderID, io, now);
      if !ok {
        return SnapshotResponse(currentTerm, false);
      }
      currentTerm := persistent.term;
      if req.snapshot.index <= rl.firstIndex - 1 {
        return SnapshotResponse(currentTerm, true);
      }
      var state := req.snapshot.state;
      var document := Saved(Some(state.data), Some(state.sessions), state.now, state.sinceSweep);
      var restored := sm.Restore(if install == RestoreFails then None else Some(document));
      if !restored {
        return SnapshotResponse(currentTerm, false);
      }
      if install == PersistFails {
        return SnapshotResponse(currentTerm, false);
      }
      file.stored := Some(req.snapshot);
      SeedFromSnapshot(req.snapshot.index);
      var done := rl.ResetToSnapshot(req.snapshot.index, req.snapshot.term, cut);
      return SnapshotResponse(currentTerm, done);
    }

    method UpdatePeerProgress(peer: int, matched: int)
      modifies this`matchIndex, this`nextIndex
      ensures State() == old(State()).UpdatePeerProgress(peer, matched)
    {
      if peer !in matchIndex {
        return;
      }
      if matched > matchIndex[peer] {
        matchIndex := matchIndex[peer := matched];
      }
      if matched + 1 > MatchOf(nextIndex, peer) {
        nextIndex := nextIndex[peer := matched + 1];
      }
    }

    method BacktrackNextIndex(peer: int, conflictIndex: int)
      modifies this`nextIndex
      ensures State() == old(State()).BacktrackNextIndex(peer, conflictIndex)
    {
      var current := MatchOf(nextIndex, peer);
      var next := current - 1;
      if conflictIndex > 0 && conflictIndex < current {
        next := conflictIndex;
      }
      if next < 1 {
        next := 1;
      }
      nextIndex := nextIndex[peer := next];
    }

    /** Sort-and-select against the specification's greatest index held by a quorum. */
    method AdvanceCommitIndex(rl: DurableLog.RaftLog, currentTerm: int) returns (advanced: bool)
      requires config.voters != map[]
      modifies this`commitIndex
      ensures State() == old(State()).AdvanceCommitIndex(rl.State(), currentTerm)
      ensures advanced ==> && old(commitIndex) < commitIndex && rl.State().TermAt(commitIndex) == currentTerm
                           && config.HasQuorum(HoldersOf(old(State()), rl.State(), commitIndex))
                           && !config.HasQuorum(HoldersOf(old(State()), rl.State(), commitIndex + 1))
      ensures advanced == (commitIndex != old(commitIndex))
    {
      hide Configuration.HasQuorum, HoldersOf, LogState.TermAt, LogState.LastIndex, IsQuorumIndex,
           Raft.AdvanceCommitIndex, Frontier;
      if role != Leader {
        OnlyLeadersCommit(State(), rl.State(), currentTerm);
        return false;
      }
      var held := matchIndex[nodeID := rl.State().LastIndex()];
      var q := QuorumIndex(config, held);
      QuorumIndexUnique(config, held, q, Frontier(config, held));
      AdvanceIs(State(), rl.State(), currentTerm, q);
      if q > commitIndex && rl.State().TermAt(q) == currentTerm {
        CommitsExactlyWhen(State(), rl.State(), currentTerm, q);
        commitIndex := q;
        return true;
      }
      return false;
    }
  }

  /** What reading the term record at boot finds. */
  datatype Load = Absent | Found(record: Persistent) | Unreadable

  /** Boot: an invalid configuration or an unreadable record is refused; an absent record is written
      with its defaults before anything else. */
  method NewRaftNode(id: int, c: Configuration, timeout: int, load: Load, saved: bool, initialRole: Role, now: int)
    returns (node: RaftNode?)
    ensures node == null <==> !c.Valid() || load == Unreadable || (load == Absent && !saved)
    ensures node != null ==>
              var record := if load.Found? then load.record else Persistent(0, NOBODY);
              && fresh(node) && node.minElectionTimeout == timeout && node.lastContact == now
              && node.State() == Raft(id, c, initialRole, 0, 0, 0, {}, Uniform(c.Peers(id).Keys, 1),
                                      Uniform(c.Peers(id).Keys, 0), record, record)
  {
    if !c.Valid() {
      return null;
    }
    match load {
      case Unreadable =>
        return null;
      case Absent =>
        if !saved {
          return null;
        }
        node := new RaftNode(id, c, timeout, Persistent(0, NOBODY), initialRole, now);
      case Found(record) =>
        node := new RaftNode(id, c, timeout, record, initialRole, now);
    }
  }
}
