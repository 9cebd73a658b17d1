/** The cluster as a state machine. Every step is one member acting on its own state, on a
    message sent some time earlier, or on a timeout; messages are never removed from the
    network, so loss, duplication and reordering are all runs of this machine.
    The transitions are the functions of `Consensus` and `RaftLog`, driven the way
    internal/engine/engine.go, quorum.go and replicator_loop.go drive them. */
module Cluster {
  import opened Membership
  import opened Store
  import opened RaftLog
  import opened Consensus
  import opened Ledger

  /** A client write whose answer is pending. */
  datatype Waiter = Waiter(index: int, term: int, command: Command)

  /** A pending linearizable read. The last three fields are history: whether there was a floor
      under the index, and the terms and commits of the whole cluster on admission. */
  datatype Read = Read(leader: int, term: int, readIndex: int, barrier: int, awaitApply: bool,
                       floored: bool, terms: map<int, int>, commits: set<(int, int)>)

  datatype Engine = Engine(preVoteTerm: int, preVotes: set<int>, noopIndex: int, roundSeq: int,
                           lastAck: map<int, int>, pending: set<Read>, waiters: set<Waiter>)

  datatype Node = Node(raft: Raft, log: LogState, machine: Machine, snapshot: Option<Snapshot>, engine: Engine)

  /** A reply names the request it answers (`poll`, `election`, `sent`, `round`): replies come
      back on the connection of their request. */
  datatype Msg =
    | PreVoteReq(to: int, vote: VoteRequest)
    | PreVoteResp(to: int, from: int, poll: int, term: int, granted: bool)
    | VoteReq(to: int, vote: VoteRequest)
    | VoteResp(to: int, from: int, election: int, term: int, granted: bool)
    | AppendReq(to: int, round: int, append: AppendRequest)
    | AppendResp(to: int, from: int, sent: int, round: int, appended: AppendResponse)
    | SnapReq(to: int, round: int, ship: SnapshotRequest)
    | SnapResp(to: int, from: int, sent: int, round: int, index: int, installed: SnapshotResponse)

  datatype Poll = Poll(candidate: int, quorum: set<int>)

  /** The ledger plus each member's complete, uncompacted log and its term. */
  datatype History = History(full: map<int, Log>, seen: map<int, int>,
                             votes: Votes, bids: Bids, reigns: Reigns, acks: Acks, commits: Commits,
                             admitted: set<Read>, released: map<Read, set<int>>, written: set<Waiter>,
                             grants: set<(int, int, int)>, polls: map<int, Poll>)

  datatype Effect = Effect(node: Node, out: set<Msg>, h: History)

  function Idle(h: History, n: Node): Effect {
    Effect(n, {}, h)
  }

  // ---- The state machine under the log ----

  /** The state a fresh machine reaches on this log. */
  function Fold(ttl: int, log: Log): Machine {
    if log == [] then FRESH else Apply(Fold(ttl, log[..|log| - 1]), ttl, |log|, log[|log| - 1].command).0
  }

  lemma FoldOneMore(ttl: int, full: Log, k: int)
    requires 0 <= k < |full|
    ensures Fold(ttl, full[..k + 1]) == Apply(Fold(ttl, full[..k]), ttl, k + 1, full[k].command).0
  {
    assert full[..k + 1][..k] == full[..k];
  }

  function Commands(log: Log): seq<Command> {
    seq(|log|, i requires 0 <= i < |log| => log[i].command)
  }

  lemma {:induction false} FoldIsApplyAll(ttl: int, log: Log)
    ensures Fold(ttl, log) == ApplyAll(FRESH, ttl, 0, Commands(log)).0
  {
    if log != [] {
      var short := log[..|log| - 1];
      FoldIsApplyAll(ttl, short);
      ApplyAllSplits(FRESH, ttl, 0, Commands(short), [log[|log| - 1].command]);
      OneCommand(Fold(ttl, short), ttl, |short|, log[|log| - 1].command);
      assert Commands(log) == Commands(short) + [log[|log| - 1].command];
    }
  }

  // ---- Elections ----

  function AskVotes(peers: set<int>, req: VoteRequest): set<Msg> {
    set p | p in peers :: VoteReq(p, req)
  }

  function AskPreVotes(peers: set<int>, req: VoteRequest): set<Msg> {
    set p | p in peers :: PreVoteReq(p, req)
  }

  /** The poll that allows i to campaign is on record, unless one for that term already is. */
  function WithPoll(h: History, i: int, n: Node): History {
    var t := n.raft.Term() + 1;
    if t in h.polls then h else h.(polls := h.polls[t := Poll(i, n.engine.preVotes)])
  }

  /** The history after i has adopted term t and voted for itself. */
  function WithBid(h: History, i: int, t: int): History
    requires i in h.full
  {
    h.(seen := h.seen[i := t], bids := h.bids[(i, t) := h.full[i]],
       votes := h.votes[(i, t) := Vote(i, h.full[i], t !in h.reigns)])
  }

  /** runElection: spend a term, vote for oneself, ask everyone. */
  function Campaign(h: History, i: int, n: Node, io: Disk): (e: Effect)
    requires i in h.full
    ensures e.h.full == h.full
  {
    var (r, ok) := n.raft.BecomeCandidate(io);
    var t := n.raft.Term() + 1;
    var polled := WithPoll(h, i, n);
    if !ok then Effect(n.(raft := r), {}, polled)
    else Effect(n.(raft := r),
                AskVotes(n.raft.config.Peers(i).Keys, VoteRequest(t, i, n.log.LastIndex(), n.log.LastTerm())),
                WithBid(polled, i, t))
  }

  /** A leader's first log: the one it campaigned with, and its no-op if that was appended. */
  function FirstLog(full: Log, t: int, noop: Option<Command>): Log {
    if noop.Some? then full + [LogEntry(|full| + 1, t, noop.value)] else full
  }

  function WithReign(h: History, i: int, n: Node, noop: Option<Command>): History
    requires i in h.full
  {
    var t := n.raft.Term();
    var full := FirstLog(h.full[i], t, noop);
    h.(full := h.full[i := full],
       reigns := h.reigns[t := Reign(i, n.raft.votesFrom, h.full[i], full, n.engine.roundSeq)])
  }

  /** becomeLeader: promotion, fresh evidence, and the term's no-op if the log takes it,
      which it does only while the next index is the one just past the log. */
  function Lead(h: History, i: int, n: Node, noop: Option<Command>): Effect
    requires i in h.full
  {
    var t := n.raft.Term();
    var (r, promoted) := n.raft.BecomeLeader(t, n.log.LastIndex());
    if !promoted || (noop.Some? && !n.log.Aligned()) then Idle(h, n)
    else
      var log := if noop.Some? then n.log.AppendLeader(noop.value, t) else n.log;
      var engine := n.engine.(noopIndex := if noop.Some? then n.log.nextIndex else 0,
                              lastAck := Uniform(n.raft.config.Peers(i).Keys, 0));
      Effect(n.(raft := r, log := log, engine := engine), {}, WithReign(h, i, n, noop))
  }

  /** startPreVote: poll the peers, or campaign and win at once when there are none. */
  function StartPreVote(h: History, i: int, n: Node, io: Disk, noop: Option<Command>): Effect
    requires i in h.full
  {
    if n.raft.role == Leader then Idle(h, n)
    else if n.raft.config.Peers(i) == map[] then
      var e := Campaign(h, i, n.(engine := n.engine.(preVotes := {i})), io);
      assert i in e.h.full;
      if e.node.raft.role == Candidate && e.node.raft.Term() == n.raft.Term() + 1 then Lead(e.h, i, e.node, noop) else e
    else
      var req := VoteRequest(n.raft.Term() + 1, i, n.log.LastIndex(), n.log.LastTerm());
      Effect(n.(engine := n.engine.(preVoteTerm := n.raft.Term() + 1, preVotes := {i})),
             AskPreVotes(n.raft.config.Peers(i).Keys, req), h)
  }

  function OnPreVoteReq(h: History, i: int, n: Node, m: Msg, sticky: bool): Effect
    requires m.PreVoteReq?
  {
    var granted := n.raft.HandlePreVote(m.vote, n.log.LastIndex(), n.log.LastTerm(), sticky);
    Effect(n, {PreVoteResp(m.vote.candidateID, i, m.vote.term, n.raft.Term(), granted)},
           if granted then h.(grants := h.grants + {(i, m.vote.candidateID, m.vote.term)}) else h)
  }

  function OnPreVoteResp(h: History, i: int, n: Node, m: Msg, io: Disk): Effect
    requires m.PreVoteResp? && i in h.full
  {
    if m.poll != n.engine.preVoteTerm || n.raft.role == Leader || n.raft.Term() >= m.poll then Idle(h, n)
    else if m.term > n.raft.Term() then
      var r := n.raft.BecomeFollower(m.term, 0, io).0;
      Effect(n.(raft := r, engine := n.engine.(preVoteTerm := 0)), {}, h.(seen := h.seen[i := r.Term()]))
    else if !m.granted then Idle(h, n)
    else
      var votes := n.engine.preVotes + {m.from};
      if n.raft.config.HasQuorum(votes) then
        Campaign(h, i, n.(engine := n.engine.(preVoteTerm := 0, preVotes := votes)), io)
      else Effect(n.(engine := n.engine.(preVotes := votes)), {}, h)
  }

  function OnVoteReq(h: History, i: int, n: Node, m: Msg, sticky: bool, io: Disk): Effect
    requires m.VoteReq? && i in h.full
  {
    var (r, resp) := n.raft.HandleRequestVote(m.vote, n.log.LastIndex(), n.log.LastTerm(), sticky, io);
    var t := m.vote.term;
    var votes := if resp.granted && (i, t) !in h.votes
                 then h.votes[(i, t) := Vote(m.vote.candidateID, h.full[i], t !in h.reigns)] else h.votes;
    Effect(n.(raft := r), {VoteResp(m.vote.candidateID, i, t, resp.term, resp.granted)},
           h.(seen := h.seen[i := r.Term()], votes := votes))
  }

  /** handleVoteResult. */
  function OnVoteResp(h: History, i: int, n: Node, m: Msg, io: Disk, noop: Option<Command>): Effect
    requires m.VoteResp? && i in h.full
  {
    if n.raft.Term() != m.election || n.raft.role != Candidate then Idle(h, n)
    else if m.term > n.raft.Term() then
      var r := n.raft.BecomeFollower(m.term, 0, io).0;
      Effect(n.(raft := r), {}, h.(seen := h.seen[i := r.Term()]))
    else if !m.granted then Idle(h, n)
    else
      var (r, won) := n.raft.RecordVote(m.from, m.election);
      if won then Lead(h, i, n.(raft := r), noop) else Effect(n.(raft := r), {}, h)
  }

  // ---- Replication ----

  /** handleProposal: append, remember the client, return. A write the log does not take is refused. */
  function Propose(h: History, i: int, n: Node, cmd: Command, logged: bool): Effect
    requires i in h.full
  {
    var t := n.raft.Term();
    if n.raft.role != Leader || !logged || !n.log.Aligned() || t !in h.reigns then Idle(h, n)
    else
      var full := h.full[i] + [LogEntry(|h.full[i]| + 1, t, cmd)];
      Effect(n.(log := n.log.AppendLeader(cmd, t),
                engine := n.engine.(waiters := n.engine.waiters + {Waiter(n.log.nextIndex, t, cmd)})), {},
             h.(full := h.full[i := full], reigns := h.reigns[t := h.reigns[t].(log := full)]))
  }

  /** The request ReplicateTo builds for a peer. */
  function BuildAppend(n: Node, peer: int): AppendRequest {
    var next := n.raft.NextIndexFor(peer);
    AppendRequest(n.raft.Term(), n.raft.id, next - 1, if next - 1 > 0 then n.log.TermAt(next - 1) else 0,
                  n.log.EntriesFrom(next), n.raft.commitIndex)
  }

  /** A round number is claimed before anything is sent. */
  function ClaimRound(h: History, n: Node): History {
    var t := n.raft.Term();
    if t in h.reigns then h.(reigns := h.reigns[t := h.reigns[t].(rounds := n.engine.roundSeq + 1)]) else h
  }

  function SendAppend(h: History, i: int, n: Node, peer: int): Effect {
    if n.raft.role != Leader || peer !in n.raft.config.Peers(i) then Idle(h, n)
    else Effect(n.(engine := n.engine.(roundSeq := n.engine.roundSeq + 1)),
                {AppendReq(peer, n.engine.roundSeq + 1, BuildAppend(n, peer))}, ClaimRound(h, n))
  }

  function SendSnapshot(h: History, i: int, n: Node, peer: int): Effect {
    if n.raft.role != Leader || peer !in n.raft.config.Peers(i) || n.snapshot.None?
       || n.raft.NextIndexFor(peer) >= n.log.firstIndex then Idle(h, n)
    else Effect(n.(engine := n.engine.(roundSeq := n.engine.roundSeq + 1)),
                {SnapReq(peer, n.engine.roundSeq + 1, SnapshotRequest(n.raft.Term(), i, n.snapshot.value))},
                ClaimRound(h, n))
  }

  function Raise(acks: Acks, v: int, t: int, k: int): Acks {
    if (v, t) in acks && acks[(v, t)] >= k then acks else acks[(v, t) := k]
  }

  /** The complete log after the receiver has handled a batch. */
  function FullAfterAppend(full: Log, log: LogState, req: AppendRequest, writes: nat): Log {
    var prev := req.prevLogIndex;
    if 0 <= prev <= |full| && log.lastIncludedIndex <= prev && (prev > 0 ==> log.TermAt(prev) == req.prevLogTerm)
    then Splice(full, prev, req.entries, writes) else full
  }

  function OnAppendReq(h: History, i: int, n: Node, m: Msg, io: Disk, writes: nat): Effect
    requires m.AppendReq? && i in h.full
  {
    var req := m.append;
    var (r, log, resp) := n.raft.HandleAppendEntries(n.log, req, io, writes);
    var touched := req.term >= n.raft.Term() && n.raft.Accept(req.term, req.leaderID, io).1;
    var full := if touched then FullAfterAppend(h.full[i], n.log, req, writes) else h.full[i];
    Effect(n.(raft := r, log := log), {AppendResp(req.leaderID, i, req.term, m.round, resp)},
           h.(full := h.full[i := full], seen := h.seen[i := r.Term()],
              acks := if resp.success then Raise(h.acks, i, req.term, resp.matchIndex) else h.acks))
  }

  /** handleStepDown: a higher term ends leadership and fails every pending client. */
  function StepDownTo(h: History, i: int, n: Node, term: int, io: Disk): Effect {
    var r := n.raft.BecomeFollower(term, 0, io).0;
    Effect(n.(raft := r, engine := n.engine.(waiters := {}, pending := {})), {}, h.(seen := h.seen[i := r.Term()]))
  }

  /** reportAck and handleAck: never let an older round overwrite a newer one. The report may be dropped. */
  function Heard(e: Engine, from: int, round: int, reported: bool): Engine {
    if reported then
      e.(lastAck := e.lastAck[from := if round > MatchOf(e.lastAck, from) then round else MatchOf(e.lastAck, from)])
    else e
  }

  /** A reply is consumed only by the leader, in the term, that sent the request. */
  function OnAppendResp(h: History, i: int, n: Node, m: Msg, io: Disk, reported: bool): Effect
    requires m.AppendResp?
  {
    var resp := m.appended;
    if n.raft.role != Leader || n.raft.Term() != m.sent || m.from !in n.raft.config.Peers(i) then Idle(h, n)
    else if resp.term > m.sent then StepDownTo(h, i, n, resp.term, io)
    else
      var r := if resp.success then n.raft.UpdatePeerProgress(m.from, resp.matchIndex)
               else n.raft.BacktrackNextIndex(m.from, resp.conflictIndex);
      Effect(n.(raft := r, engine := Heard(n.engine, m.from, m.round, reported && resp.term == m.sent)), {}, h)
  }

  /** Enabled when the snapshot is not behind what this member has applied, and restoring,
      persisting and cutting the log happen together or not at all. */
  function OnSnapReq(h: History, i: int, n: Node, m: Msg, io: Disk, install: Install): Effect
    requires m.SnapReq? && i in h.full
  {
    var req := m.ship;
    var newer := req.snapshot.index > n.log.lastIncludedIndex;
    if install == PersistFails || (newer && req.snapshot.index < n.raft.lastApplied) then Idle(h, n)
    else
      var d := HandleInstallSnapshot(n.raft, n.log, n.machine, n.snapshot, req, io, install);
      var replaced := d.reply.success && newer && !n.log.Retains(req.snapshot.index, req.snapshot.term);
      Effect(n.(raft := d.raft, log := d.log, machine := d.machine, snapshot := d.snapshot),
             {SnapResp(req.leaderID, i, req.term, m.round, req.snapshot.index, d.reply)},
             h.(full := if replaced then h.full[i := Stored(h.reigns, req.term, req.snapshot.index)] else h.full,
                seen := h.seen[i := d.raft.Term()],
                acks := if d.reply.success then Raise(h.acks, i, req.term, req.snapshot.index) else h.acks))
  }

  function OnSnapResp(h: History, i: int, n: Node, m: Msg, io: Disk, reported: bool): Effect
    requires m.SnapResp?
  {
    var resp := m.installed;
    if n.raft.role != Leader || n.raft.Term() != m.sent || m.from !in n.raft.config.Peers(i) then Idle(h, n)
    else if resp.term > m.sent then StepDownTo(h, i, n, resp.term, io)
    else
      var r := if resp.success then n.raft.UpdatePeerProgress(m.from, m.index) else n.raft;
      Effect(n.(raft := r, engine := Heard(n.engine, m.from, m.round, reported && resp.term == m.sent)), {}, h)
  }

  // ---- Commit, apply, compact ----

  /** fireCommittedWaiters answers nil to exactly these. */
  function Answered(waiters: set<Waiter>, commitIndex: int, term: int): set<Waiter> {
    set w | w in waiters && w.term == term && w.index <= commitIndex
  }

  function StillWaiting(waiters: set<Waiter>, commitIndex: int, term: int): set<Waiter> {
    set w | w in waiters && w.term == term && w.index > commitIndex
  }

  /** The leader branch of the tick. */
  ghost function TickLeader(h: History, i: int, n: Node): Effect
    requires n.raft.config.voters != map[]
  {
    if n.raft.role != Leader then Idle(h, n)
    else
      var t := n.raft.Term();
      var r := n.raft.AdvanceCommitIndex(n.log, t);
      var latest := n.log.LastIndex();
      var q := r.commitIndex;
      var h1 := if q == n.raft.commitIndex then h
                else h.(acks := Raise(h.acks, i, t, latest),
                        commits := h.commits[(t, q) := Holding(r.config.All().Keys,
                                                               n.raft.matchIndex[n.raft.id := latest], q)]);
      Effect(n.(raft := r, engine := n.engine.(waiters := StillWaiting(n.engine.waiters, q, t))), {},
             h1.(written := h.written + Answered(n.engine.waiters, q, t)))
  }

  /** One iteration of applyCommitted. A missing entry or a failed command halts the member. */
  function ApplyOne(h: History, ttl: int, n: Node): Effect {
    var next := n.raft.lastApplied + 1;
    var entry := n.log.GetEntry(next);
    if n.raft.lastApplied >= n.raft.commitIndex || entry.None? then Idle(h, n)
    else
      var (machine, outcome) := Apply(n.machine, ttl, next, entry.value.command);
      if outcome != Applied then Idle(h, n)
      else Effect(n.(machine := machine, raft := n.raft.(lastApplied := next)), {}, h)
  }

  /** compact, at the applied boundary. */
  function Compact(h: History, n: Node): Effect {
    var index := n.raft.lastApplied;
    var term := n.log.TermAt(index);
    if index <= 0 || term == 0 then Idle(h, n)
    else Effect(n.(snapshot := Some(Snapshot(index, term, n.machine)), log := n.log.TruncateBefore(index, term)), {}, h)
  }

  // ---- Linearizable reads ----

  /** What section 8's first precaution is for: the term's no-op is in the log, or no entry of an
      earlier term lies above the commit index. */
  predicate Floored(n: Node) {
    || n.engine.noopIndex > 0
    || n.raft.commitIndex == n.log.LastIndex()
    || n.log.TermAt(n.raft.commitIndex + 1) == n.raft.Term()
  }

  /** The read handleRead admits: the index is pinned, and only rounds started from now on count. */
  function Admitted(h: History, i: int, n: Node, awaitApply: bool): Read {
    var index := if n.engine.noopIndex > n.raft.commitIndex then n.engine.noopIndex else n.raft.commitIndex;
    Read(i, n.raft.Term(), index, n.engine.roundSeq, awaitApply, Floored(n), h.seen, h.commits.Keys)
  }

  function AdmitRead(h: History, i: int, n: Node, awaitApply: bool): Effect {
    if n.raft.role != Leader then Idle(h, n)
    else
      var read := Admitted(h, i, n, awaitApply);
      Effect(n.(engine := n.engine.(pending := n.engine.pending + {read})), {}, h.(admitted := h.admitted + {read}))
  }

  function Confirming(lastAck: map<int, int>, barrier: int): set<int> {
    set p | p in lastAck && lastAck[p] > barrier
  }

  predicate ReadSatisfied(n: Node, read: Read) {
    && n.raft.role == Leader && n.raft.Term() == read.term
    && n.engine.noopIndex <= n.raft.commitIndex
    && (read.awaitApply ==> n.raft.lastApplied >= read.readIndex)
    && 1 + |Confirming(n.engine.lastAck, read.barrier)| > |n.raft.config.voters| / 2
  }

  function ReleaseRead(h: History, i: int, n: Node, read: Read): Effect {
    if read !in n.engine.pending || !ReadSatisfied(n, read) then Idle(h, n)
    else Effect(n.(engine := n.engine.(pending := n.engine.pending - {read})), {},
                h.(released := h.released[read := {i} + Confirming(n.engine.lastAck, read.barrier)]))
  }

  // ---- Timeouts, stepdown, crash ----

  function DropClients(h: History, n: Node, waiters: set<Waiter>, gone: set<Read>): Effect {
    Effect(n.(engine := n.engine.(waiters := n.engine.waiters - waiters, pending := n.engine.pending - gone)), {}, h)
  }

  /** CheckQuorum steps down without touching the term. */
  function StepDown(h: History, n: Node): Effect {
    Effect(n.(raft := n.raft.BecomeFollower(n.raft.Term(), 0, Durable).0,
              engine := n.engine.(waiters := {}, pending := {})), {}, h)
  }

  /** The process dies and main brings the member back from its files. */
  function Restarted(n: Node): Node {
    var peers := n.raft.config.Peers(n.raft.id).Keys;
    var base := if n.snapshot.Some? then n.snapshot.value.index else 0;
    var log := if n.snapshot.Some? then Recovered(n.log.cache).RestoreOffset(base, n.snapshot.value.term)
               else Recovered(n.log.cache);
    Node(Raft(n.raft.id, n.raft.config, Follower, 0, 0, 0, {}, Uniform(peers, 1), Uniform(peers, 0),
              n.raft.disk, n.raft.disk).Seed(base),
         log, if n.snapshot.Some? then n.snapshot.value.state else FRESH, n.snapshot,
         Engine(0, {}, 0, 0, map[], {}, {}))
  }

  function Restart(h: History, i: int, n: Node): Effect {
    Effect(Restarted(n), {}, h.(seen := h.seen[i := n.raft.disk.term]))
  }

  // ---- Runs ----

  datatype Step =
    | Timeout(who: int, io: Disk, noop: Option<Command>)
    | Deliver(who: int, msg: Msg, sticky: bool, io: Disk, writes: nat, install: Install, reported: bool,
              noop: Option<Command>)
    | ClientWrite(who: int, command: Command, logged: bool)
    | SendEntries(who: int, peer: int)
    | ShipSnapshot(who: int, peer: int)
    | LeaderTick(who: int)
    | ApplyNext(who: int)
    | TakeSnapshot(who: int)
    | ReadArrives(who: int, awaitApply: bool)
    | ReadFires(who: int, read: Read)
    | ClientsGiveUp(who: int, waiters: set<Waiter>, gone: set<Read>)
    | QuorumLost(who: int)
    | Crash(who: int)

  datatype State = State(config: Configuration, ttl: int, nodes: map<int, Node>, net: set<Msg>, h: History)

  function Receive(h: History, i: int, n: Node, s: Step): Effect
    requires s.Deliver? && i in h.full
  {
    match s.msg
    case PreVoteReq(_, _) => OnPreVoteReq(h, i, n, s.msg, s.sticky)
    case PreVoteResp(_, _, _, _, _) => OnPreVoteResp(h, i, n, s.msg, s.io)
    case VoteReq(_, _) => OnVoteReq(h, i, n, s.msg, s.sticky, s.io)
    case VoteResp(_, _, _, _, _) => OnVoteResp(h, i, n, s.msg, s.io, s.noop)
    case AppendReq(_, _, _) => OnAppendReq(h, i, n, s.msg, s.io, s.writes)
    case AppendResp(_, _, _, _, _) => OnAppendResp(h, i, n, s.msg, s.io, s.reported)
    case SnapReq(_, _, _) => OnSnapReq(h, i, n, s.msg, s.io, s.install)
    case SnapResp(_, _, _, _, _, _) => OnSnapResp(h, i, n, s.msg, s.io, s.reported)
  }

  ghost function Act(ttl: int, h: History, i: int, n: Node, s: Step): Effect
    requires i in h.full && n.raft.config.voters != map[]
  {
    match s
    case Timeout(_, io, noop) => StartPreVote(h, i, n, io, noop)
    case Deliver(_, _, _, _, _, _, _, _) => Receive(h, i, n, s)
    case ClientWrite(_, cmd, logged) => Propose(h, i, n, cmd, logged)
    case SendEntries(_, peer) => SendAppend(h, i, n, peer)
    case ShipSnapshot(_, peer) => SendSnapshot(h, i, n, peer)
    case LeaderTick(_) => TickLeader(h, i, n)
    case ApplyNext(_) => ApplyOne(h, ttl, n)
    case TakeSnapshot(_) => Compact(h, n)
    case ReadArrives(_, await) => AdmitRead(h, i, n, await)
    case ReadFires(_, read) => ReleaseRead(h, i, n, read)
    case ClientsGiveUp(_, waiters, gone) => DropClients(h, n, waiters, gone)
    case QuorumLost(_) => if n.raft.role == Leader then StepDown(h, n) else Idle(h, n)
    case Crash(_) => Restart(h, i, n)
  }

  /** A step is possible when the member exists and any message it handles was sent to it. */
  predicate Possible(s: State, step: Step) {
    && step.who in s.nodes && step.who in s.h.full
    && s.nodes[step.who].raft.config.voters != map[]
    && (step.Deliver? ==> step.msg in s.net && step.msg.to == step.who)
  }

  ghost function Next(s: State, step: Step): State {
    if !Possible(s, step) then s
    else
      var e := Act(s.ttl, s.h, step.who, s.nodes[step.who], step);
      s.(nodes := s.nodes[step.who := e.node], net := s.net + e.out, h := e.h)
  }

  function Booted(id: int, c: Configuration): Node {
    var peers := c.Peers(id).Keys;
    Node(Raft(id, c, Follower, 0, 0, 0, {}, Uniform(peers, 1), Uniform(peers, 0),
              Persistent(0, NOBODY), Persistent(0, NOBODY)),
         Recovered([]), FRESH, None, Engine(0, {}, 0, 0, map[], {}, {}))
  }

  /** A cluster that can be booted: a valid configuration whose members all have positive ids. */
  predicate Bootable(c: Configuration) {
    c.Valid() && forall id :: id in c.All() ==> id > 0
  }

  /** Every member on first boot, nothing sent, nothing promised. */
  function Start(c: Configuration, ttl: int): State
    requires Bootable(c)
  {
    var ids := c.All().Keys;
    State(c, ttl, map i | i in ids :: Booted(i, c), {},
          History(map i | i in ids :: [], Uniform(ids, 0), map[], map[], map[], map[], map[], {}, map[], {}, {}, map[]))
  }

  /** A run: the states it passes through, and the step taken from each to the next. */
  datatype Run = Run(states: seq<State>, steps: seq<Step>) {

    ghost predicate Linked(k: int) {
      0 <= k < |steps| && k + 1 < |states| && states[k + 1] == Next(states[k], steps[k])
    }

    /** It starts with the first boot of a cluster with this configuration. */
    ghost predicate Of(c: Configuration, ttl: int) {
      && Bootable(c) && |states| == |steps| + 1 && states[0] == Start(c, ttl)
      && (forall k :: 0 <= k < |steps| ==> Linked(k))
    }
  }
}
