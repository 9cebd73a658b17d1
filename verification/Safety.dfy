/** What every run of the cluster guarantees, whatever crashes, losses, duplicates, reorderings,
    compactions and snapshot installs it contains. Each theorem speaks of every run from first
    boot, or of any two points of one. */
module Safety {
  import opened Membership
  import opened Store
  import opened RaftLog
  import opened Consensus
  import opened Ledger
  import opened Cluster
  import opened Invariant
  import opened Frames
  import opened Replication
  import opened Runs

  // ---- The decided log ----

  /** The longest log anyone has ever committed. */
  ghost predicate IsDecided(reigns: Reigns, commits: Commits, log: Log) {
    && (log == [] || exists t, n :: (t, n) in commits && log == Stored(reigns, t, n))
    && (forall t, n :: (t, n) in commits ==> Stored(reigns, t, n) <= log)
  }

  lemma StoredAgree(c: Configuration, h: History, t: int, n: int, u: int, m: int)
    requires HistoryOk(c, h) && (t, n) in h.commits && (u, m) in h.commits
    ensures Stored(h.reigns, t, n) <= Stored(h.reigns, u, m) || Stored(h.reigns, u, m) <= Stored(h.reigns, t, n)
  {
    LedgerCommits(c, h);
    assert CommittedBy(h.reigns, h.commits, Stored(h.reigns, t, n), t);
    assert CommittedBy(h.reigns, h.commits, Stored(h.reigns, u, m), u);
    hide LedgerOk, CommittedBy;
    CommittedAgree(c, h.votes, h.bids, h.reigns, h.acks, h.commits, Stored(h.reigns, t, n), Stored(h.reigns, u, m), t,
                   u);
  }

  lemma {:induction false} LongestOf(c: Configuration, h: History, keys: set<(int, int)>) returns (log: Log)
    requires HistoryOk(c, h) && keys <= h.commits.Keys
    ensures log == [] || exists t, n :: (t, n) in keys && log == Stored(h.reigns, t, n)
    ensures forall t, n :: (t, n) in keys ==> Stored(h.reigns, t, n) <= log
    decreases keys
  {
    hide HistoryOk, Stored;
    if keys == {} {
      log := [];
    } else {
      var key: (int, int) :| key in keys;
      var (t, n) := key;
      log := LongestOf(c, h, keys - {key});
      if log != [] {
        var u, m :| (u, m) in keys - {key} && log == Stored(h.reigns, u, m);
        StoredAgree(c, h, t, n, u, m);
      }
      if log <= Stored(h.reigns, t, n) {
        log := Stored(h.reigns, t, n);
      }
    }
  }

  ghost function Decided(h: History): Log {
    if exists log :: IsDecided(h.reigns, h.commits, log) then
      var log :| IsDecided(h.reigns, h.commits, log); log
    else []
  }

  lemma DecidedIs(c: Configuration, h: History)
    requires HistoryOk(c, h)
    ensures IsDecided(h.reigns, h.commits, Decided(h))
  {
    hide HistoryOk;
    var log := LongestOf(c, h, h.commits.Keys);
    assert IsDecided(h.reigns, h.commits, log);
  }

  lemma CommittedIsDecided(c: Configuration, h: History, log: Log, bound: int)
    requires HistoryOk(c, h) && CommittedBy(h.reigns, h.commits, log, bound)
    ensures log <= Decided(h)
  {
    hide HistoryOk, Stored, Decided;
    DecidedIs(c, h);
    if log != [] {
      var t, n :| (t, n) in h.commits && t <= bound && |log| <= n && log <= Stored(h.reigns, t, n);
    }
  }

  /** What is decided is never changed, only extended. */
  lemma DecidedGrows(c: Configuration, h: History, h': History)
    requires HistoryOk(c, h) && HistoryOk(c, h') && Grows(h, h')
    ensures Decided(h) <= Decided(h')
  {
    DecidedIs(c, h);
    DecidedIs(c, h');
    LedgerCommits(c, h);
    var log := Decided(h);
    if log != [] {
      var t, n :| (t, n) in h.commits && log == Stored(h.reigns, t, n);
      StoredGrows(h.reigns, h'.reigns, t, n);
      assert (t, n) in h'.commits.Keys;
    }
  }

  lemma CommittedLater(c: Configuration, h: History, h': History, log: Log, bound: int)
    requires HistoryOk(c, h) && Grows(h, h') && CommittedBy(h.reigns, h.commits, log, bound)
    ensures CommittedBy(h'.reigns, h'.commits, log, bound)
  {
    LedgerCommits(c, h);
    assert forall k :: k in h.commits ==> k in h.commits.Keys && k in h'.commits.Keys;
    CommittedStays(c, h.reigns, h'.reigns, h.acks, h.commits, h'.commits, log, bound);
  }

  // ---- State machine safety and snapshot transparency ----

  /** The state reached by running a log's commands on a fresh machine. */
  function Replayed(ttl: int, log: Log): Machine {
    ApplyAll(FRESH, ttl, 0, Commands(log)).0
  }

  /** A member against the decided log: committed entries, state machine and snapshot. */
  ghost predicate MemberFollows(ttl: int, n: Node, log: Log) {
    && 0 <= n.log.lastIncludedIndex <= n.raft.lastApplied <= n.raft.commitIndex <= |log|
    && n.log.firstIndex == n.log.lastIncludedIndex + 1
    && (forall k :: n.log.lastIncludedIndex < k <= n.raft.commitIndex ==> n.log.GetEntry(k) == Some(log[k - 1]))
    && n.machine == Replayed(ttl, log[..n.raft.lastApplied])
    && (n.log.lastIncludedIndex == 0 <==> n.snapshot.None?)
    && (n.snapshot.Some? ==> n.snapshot.value.index == n.log.lastIncludedIndex
                             && SnapshotFollows(ttl, n.snapshot.value, log))
  }

  ghost predicate SnapshotFollows(ttl: int, s: Snapshot, log: Log) {
    1 <= s.index <= |log| && s.term == log[s.index - 1].term && s.state == Replayed(ttl, log[..s.index])
  }

  lemma MemberFollowsDecided(c: Configuration, ttl: int, h: History, h': History, i: int, n: Node)
    requires HistoryOk(c, h) && HistoryOk(c, h') && Grows(h, h') && NodeOk(c, ttl, h, i, n)
    ensures MemberFollows(ttl, n, Decided(h'))
  {
    hide HistoryOk, Grows, BallotOk, KeepsOk, CandidateOk, LeaderOk, RoundsOk, ClientsOk, PollingOk, Grounded,
         TermsBelow, CommittedBy, Decided, Fold, ApplyAll;
    var full, k := h.full[i], n.raft.commitIndex;
    CommittedLater(c, h, h', full[..k], n.raft.Term());
    CommittedIsDecided(c, h', full[..k], n.raft.Term());
    var log := Decided(h');
    var base, applied := n.log.lastIncludedIndex, n.raft.lastApplied;
    assert full[..k][..applied] == full[..applied] == log[..applied]
           && full[..k][..base] == full[..base] == log[..base];
    FoldIsApplyAll(ttl, log[..applied]);
    FoldIsApplyAll(ttl, log[..base]);
    forall j | base < j <= k
      ensures n.log.GetEntry(j) == Some(log[j - 1])
    {
      AccessorsAgree(n.log, full, j);
      assert full[..k][j - 1] == log[j - 1];
    }
    assert base > 0 ==> full[..k][base - 1] == log[base - 1];
  }

  lemma ShippedFollowsDecided(c: Configuration, ttl: int, h: History, h': History, m: Msg)
    requires HistoryOk(c, h) && HistoryOk(c, h') && Grows(h, h') && m.SnapReq? && MsgOk(ttl, h, m)
    ensures SnapshotFollows(ttl, m.ship.snapshot, Decided(h'))
  {
    hide HistoryOk, Grows, CommittedBy, Decided, Fold, ApplyAll;
    var s, sent := m.ship.snapshot, h.reigns[m.ship.term].log;
    CommittedLater(c, h, h', sent[..s.index], m.ship.term);
    CommittedIsDecided(c, h', sent[..s.index], m.ship.term);
    assert Decided(h')[..s.index] == sent[..s.index] && sent[..s.index][s.index - 1] == sent[s.index - 1];
    FoldIsApplyAll(ttl, sent[..s.index]);
  }

  /** At any two points of any run there is one decided log, extended from the first to the second.
      Every member's committed entries, state machine and snapshot, and every snapshot shipped,
      at either point, are exactly what that log says. */
  lemma OneDecidedLog(c: Configuration, ttl: int, run: Run, a: nat, b: nat)
    requires run.Of(c, ttl) && a <= b < |run.states|
    ensures var s, s' := run.states[a], run.states[b];
            var log := Decided(s'.h);
            && Decided(s.h) <= log
            && (forall i :: i in s.nodes ==> MemberFollows(ttl, s.nodes[i], log))
            && (forall m :: m in s.net && m.SnapReq? ==> SnapshotFollows(ttl, m.ship.snapshot, log))
  {
    hide HistoryOk, NodeOk, MsgOk, Grows, Run.Of, Decided, MemberFollows, SnapshotFollows;
    TwoPoints(c, ttl, run, a, b);
    var s, s' := run.states[a], run.states[b];
    DecidedGrows(c, s.h, s'.h);
    forall i | i in s.nodes
      ensures MemberFollows(ttl, s.nodes[i], Decided(s'.h))
    {
      MemberFollowsDecided(c, ttl, s.h, s'.h, i, s.nodes[i]);
    }
    forall m | m in s.net && m.SnapReq?
      ensures SnapshotFollows(ttl, m.ship.snapshot, Decided(s'.h))
    {
      ShippedFollowsDecided(c, ttl, s.h, s'.h, m);
    }
  }

  lemma FollowersAgree(ttl: int, a: Node, b: Node, log: Log, k: int)
    requires MemberFollows(ttl, a, log) && MemberFollows(ttl, b, log)
    ensures CommittedAlike(a, b, k)
  {
    hide Replayed;
  }

  ghost predicate CommittedAlike(a: Node, b: Node, k: int) {
    && (k <= a.raft.commitIndex && k <= b.raft.commitIndex && a.log.GetEntry(k).Some? && b.log.GetEntry(k).Some?
        ==> a.log.GetEntry(k) == b.log.GetEntry(k))
    && (a.raft.lastApplied == b.raft.lastApplied ==> a.machine == b.machine)
  }

  /** No two members, at any two moments of a run, ever hold different committed entries at one
      index, and members that have applied equally far hold equal state. */
  lemma StateMachineSafety(c: Configuration, ttl: int, run: Run, a: nat, b: nat, i: int, j: int, k: int)
    requires run.Of(c, ttl) && a <= b < |run.states| && i in run.states[a].nodes && j in run.states[b].nodes
    ensures CommittedAlike(run.states[a].nodes[i], run.states[b].nodes[j], k)
  {
    hide Run.Of, Decided, MemberFollows, SnapshotFollows, CommittedAlike;
    OneDecidedLog(c, ttl, run, a, b);
    OneDecidedLog(c, ttl, run, b, b);
    FollowersAgree(ttl, run.states[a].nodes[i], run.states[b].nodes[j],
                   Decided(run.states[b].h), k);
  }

  // ---- Leader completeness ----

  /** The log reaches index k, and holds the decided entry wherever it has not compacted it away. */
  ghost predicate HoldsThrough(log: LogState, decided: Log, k: int) {
    && k <= log.LastIndex() && k <= |decided|
    && (forall m :: 1 <= m <= k && log.lastIncludedIndex < m ==> log.GetEntry(m) == Some(decided[m - 1]))
  }

  /** What was committed in term t through index n is held by every leader of term t or later, at
      every later moment, for as long as it leads. */
  lemma LeadersAreComplete(c: Configuration, ttl: int, run: Run, a: nat, b: nat, t: int, n: int, j: int)
    requires run.Of(c, ttl) && a <= b < |run.states| && (t, n) in run.states[a].h.commits
    requires j in run.states[b].nodes && run.states[b].nodes[j].raft.role == Leader
    requires run.states[b].nodes[j].raft.Term() >= t
    ensures HoldsThrough(run.states[b].nodes[j].log, Decided(run.states[b].h), n)
  {
    hide HistoryOk, NodeOk, MsgOk, Grows, Run.Of, Decided, HoldsThrough;
    TwoPoints(c, ttl, run, a, b);
    var s, s' := run.states[a], run.states[b];
    CommitIsCommitted(c, s.h, t, n);
    CommittedLater(c, s.h, s'.h, Stored(s.h.reigns, t, n), t);
    LeaderHolds(c, ttl, s'.h, j, s'.nodes[j], Stored(s.h.reigns, t, n), t);
  }

  /** In terms of members: whatever one has committed, every leader of its term or a later one holds. */
  lemma LeadersHoldMembersCommits(c: Configuration, ttl: int, run: Run, a: nat, b: nat, i: int, j: int)
    requires run.Of(c, ttl) && a <= b < |run.states| && i in run.states[a].nodes
    requires j in run.states[b].nodes && run.states[b].nodes[j].raft.role == Leader
    requires run.states[b].nodes[j].raft.Term() >= run.states[a].nodes[i].raft.Term()
    ensures HoldsThrough(run.states[b].nodes[j].log, Decided(run.states[b].h), run.states[a].nodes[i].raft.commitIndex)
  {
    hide HistoryOk, NodeOk, MsgOk, Grows, Run.Of, Decided, HoldsThrough, CommittedBy;
    TwoPoints(c, ttl, run, a, b);
    var s, s' := run.states[a], run.states[b];
    var n := s.nodes[i];
    CommitFacts(c, ttl, s.h, i, n);
    var prefix := s.h.full[i][..n.raft.commitIndex];
    CommittedLater(c, s.h, s'.h, prefix, n.raft.Term());
    LeaderHolds(c, ttl, s'.h, j, s'.nodes[j], prefix, n.raft.Term());
  }

  lemma CommitIsCommitted(c: Configuration, h: History, t: int, n: int)
    requires HistoryOk(c, h) && (t, n) in h.commits
    ensures |Stored(h.reigns, t, n)| == n && CommittedBy(h.reigns, h.commits, Stored(h.reigns, t, n), t)
  {
    LedgerCommits(c, h);
  }

  lemma CommitFacts(c: Configuration, ttl: int, h: History, i: int, n: Node)
    requires NodeOk(c, ttl, h, i, n)
    ensures i in h.full && 0 <= n.raft.commitIndex <= |h.full[i]|
    ensures CommittedBy(h.reigns, h.commits, h.full[i][..n.raft.commitIndex], n.raft.Term())
  {
  }

  lemma LeaderHolds(c: Configuration, ttl: int, h: History, j: int, leader: Node, prefix: Log, bound: int)
    requires HistoryOk(c, h) && NodeOk(c, ttl, h, j, leader) && leader.raft.role == Leader
    requires CommittedBy(h.reigns, h.commits, prefix, bound) && bound <= leader.raft.Term()
    ensures HoldsThrough(leader.log, Decided(h), |prefix|)
  {
    hide HistoryOk, NodeOk, LedgerOk, CommittedBy, MachineOk, CommitOk, Decided, LogState.LastIndex, LogState.GetEntry,
         Represents;
    LeaderFacts(c, ttl, h, j, leader);
    CommittedLonger(h.reigns, h.commits, prefix, bound, leader.raft.Term());
    CommittedIsDecided(c, h, prefix, bound);
    LeaderHasCommitted(c, h.votes, h.bids, h.reigns, h.acks, h.commits, prefix, leader.raft.Term());
    LastAgrees(leader.log, h.full[j]);
    forall m | 1 <= m <= |prefix| && leader.log.lastIncludedIndex < m
      ensures leader.log.GetEntry(m) == Some(Decided(h)[m - 1])
    {
      AccessorsAgree(leader.log, h.full[j], m);
      assert prefix[m - 1] == h.full[j][m - 1] == Decided(h)[m - 1];
    }
  }

  // ---- Election safety ----

  lemma ReignsOnlyGrow(h: History, h': History)
    requires Grows(h, h')
    ensures ReignsGrow(h.reigns, h'.reigns)
  {
  }

  lemma LeaderIsReign(c: Configuration, ttl: int, h: History, i: int, n: Node)
    requires NodeOk(c, ttl, h, i, n) && n.raft.role == Leader
    ensures n.raft.Term() in h.reigns && h.reigns[n.raft.Term()].leader == i
  {
  }

  /** At most one leader per term, over a whole run: even if the two lead at different moments,
      with any number of crashes and failed saves in between. */
  lemma ElectionSafety(c: Configuration, ttl: int, run: Run, a: nat, b: nat, i: int, j: int)
    requires run.Of(c, ttl) && a <= b < |run.states|
    requires var s, s' := run.states[a], run.states[b];
             && i in s.nodes && j in s'.nodes && s.nodes[i].raft.role == Leader && s'.nodes[j].raft.role == Leader
             && s.nodes[i].raft.Term() == s'.nodes[j].raft.Term()
    ensures i == j
  {
    hide HistoryOk, NodeOk, MsgOk, Run.Of, Grows;
    TwoPoints(c, ttl, run, a, b);
    var s, s' := run.states[a], run.states[b];
    LeaderIsReign(c, ttl, s.h, i, s.nodes[i]);
    LeaderIsReign(c, ttl, s'.h, j, s'.nodes[j]);
    hide Inv;
    ReignsOnlyGrow(s.h, s'.h);
  }

  /** No server ever sends grants to two candidates in one term. */
  lemma OneGrantPerTerm(c: Configuration, ttl: int, run: Run, a: nat, m: Msg, n: Msg)
    requires run.Of(c, ttl) && a < |run.states|
    requires m in run.states[a].net && n in run.states[a].net
    requires m.VoteResp? && n.VoteResp? && m.granted && n.granted && m.from == n.from && m.election == n.election
    ensures m.to == n.to
  {
    hide HistoryOk, NodeOk, Run.Of;
    RunOk(c, ttl, run, a);
    var s := run.states[a];
    assert MsgOk(ttl, s.h, m) && MsgOk(ttl, s.h, n);
  }

  // ---- Log matching ----

  lemma LogFacts(c: Configuration, ttl: int, h: History, i: int, n: Node)
    requires NodeOk(c, ttl, h, i, n)
    ensures i in h.full && Represents(n.log, h.full[i]) && Grounded(h.reigns, h.full[i])
  {
  }

  /** Where the terms of two members' logs meet, at any two moments, everything below agrees:
      entries where both still hold them, and the boundary terms too. */
  lemma LogsMatch(c: Configuration, ttl: int, run: Run, a: nat, b: nat, i: int, j: int, k: int, m: int)
    requires run.Of(c, ttl) && a <= b < |run.states|
    requires var s, s' := run.states[a], run.states[b];
             && i in s.nodes && j in s'.nodes
             && s.nodes[i].log.lastIncludedIndex <= m <= k && s'.nodes[j].log.lastIncludedIndex <= m
             && s.nodes[i].log.TermAt(k) == s'.nodes[j].log.TermAt(k) != 0
    ensures var x, y := run.states[a].nodes[i].log, run.states[b].nodes[j].log;
            && x.TermAt(m) == y.TermAt(m)
            && (x.lastIncludedIndex < m && y.lastIncludedIndex < m
                ==> x.GetEntry(m) == y.GetEntry(m) && x.GetEntry(m).Some?)
  {
    hide HistoryOk, NodeOk, MsgOk, Run.Of;
    TwoPoints(c, ttl, run, a, b);
    var s, s' := run.states[a], run.states[b];
    LogFacts(c, ttl, s.h, i, s.nodes[i]);
    LogFacts(c, ttl, s'.h, j, s'.nodes[j]);
    hide Inv, Grounded;
    GroundedGrows(s.h.reigns, s'.h.reigns, s.h.full[i]);
    TermsMeet(s'.h.reigns, s.nodes[i].log, s.h.full[i], s'.nodes[j].log, s'.h.full[j], k, m);
  }

  lemma TermsMeet(reigns: Reigns, a: LogState, fullA: Log, b: LogState, fullB: Log, k: int, m: int)
    requires Represents(a, fullA) && Represents(b, fullB) && Grounded(reigns, fullA) && Grounded(reigns, fullB)
    requires a.lastIncludedIndex <= m <= k && b.lastIncludedIndex <= m && a.TermAt(k) == b.TermAt(k) != 0
    ensures a.TermAt(m) == b.TermAt(m)
    ensures a.lastIncludedIndex < m && b.lastIncludedIndex < m ==> a.GetEntry(m) == b.GetEntry(m) && a.GetEntry(m).Some?
  {
    AccessorsAgree(a, fullA, k);
    AccessorsAgree(b, fullB, k);
    AccessorsAgree(a, fullA, m);
    AccessorsAgree(b, fullB, m);
    hide LogState.TermAt, LogState.GetEntry, Represents;
    LogMatching(reigns, fullA, fullB, k - 1);
    assert m > 0 ==> fullA[..k][m - 1] == fullB[..k][m - 1];
  }

  /** Terms never decrease along a member's log, from its snapshot boundary to its end. */
  lemma TermsNeverDecrease(c: Configuration, ttl: int, run: Run, a: nat, i: int, m: int, k: int)
    requires run.Of(c, ttl) && a < |run.states|
    requires var s := run.states[a];
             i in s.nodes && s.nodes[i].log.lastIncludedIndex <= m <= k <= s.nodes[i].log.LastIndex()
    ensures var log := run.states[a].nodes[i].log; log.TermAt(m) <= log.TermAt(k)
  {
    hide NodeOk, MsgOk, Run.Of, SeenOk, ReadsOk, ReleasedOk, WrittenOk, PollsOk, LogState.TermAt, LogState.LastIndex;
    RunOk(c, ttl, run, a);
    var s := run.states[a];
    var log, full := s.nodes[i].log, s.h.full[i];
    LogFacts(c, ttl, s.h, i, s.nodes[i]);
    LastAgrees(log, full);
    AccessorsAgree(log, full, m);
    AccessorsAgree(log, full, k);
    GroundedSorted(c, s.h.votes, s.h.bids, s.h.reigns, full);
    assert m == 0 && k > 0 ==> full[k - 1].term >= 1 by {
      if m == 0 && k > 0 {
        LedgerCommits(c, s.h);
      }
    }
  }

  // ---- Honest answers to writes ----

  /** A write answered nil is in the decided log, by index, term and command, ever after. */
  lemma HonestAcks(c: Configuration, ttl: int, run: Run, a: nat, b: nat, w: Waiter)
    requires run.Of(c, ttl) && a <= b < |run.states| && w in run.states[a].h.written
    ensures var log := Decided(run.states[b].h);
            1 <= w.index <= |log| && log[w.index - 1] == LogEntry(w.index, w.term, w.command)
  {
    hide HistoryOk, NodeOk, MsgOk, Grows, Run.Of, Decided;
    TwoPoints(c, ttl, run, a, b);
    var s, s' := run.states[a], run.states[b];
    WrittenFacts(c, s.h, w);
    hide CommittedBy;
    CommittedIsDecided(c, s.h, Stored(s.h.reigns, w.term, w.index), w.term);
    DecidedGrows(c, s.h, s'.h);
  }

  lemma WrittenFacts(c: Configuration, h: History, w: Waiter)
    requires HistoryOk(c, h) && w in h.written
    ensures EntryAt(h.reigns, w) && CommittedBy(h.reigns, h.commits, Stored(h.reigns, w.term, w.index), w.term)
  {
  }

  // ---- Pre-vote guards the term ----

  /** A quorum, the candidate included, said yes to a poll for term t. */
  ghost predicate PollCarried(c: Configuration, grants: set<(int, int, int)>, t: int) {
    exists candidate: int, quorum: set<int> :: c.HasQuorum(quorum) && SaidYes(grants, candidate, t, quorum)
  }

  /** The term a message claims somebody has reached; a poll claims none. */
  function ClaimedTerm(m: Msg): int {
    match m
    case PreVoteReq(_, _) => 0
    case PreVoteResp(_, _, _, term, _) => term
    case VoteReq(_, vote) => vote.term
    case VoteResp(_, _, _, term, _) => term
    case AppendReq(_, _, append) => append.term
    case AppendResp(_, _, _, _, appended) => appended.term
    case SnapReq(_, _, ship) => ship.term
    case SnapResp(_, _, _, _, _, installed) => installed.term
  }

  /** A term is in use, in memory, on disk or in a message, only after a poll for it carried. */
  lemma TermsWerePolled(c: Configuration, ttl: int, run: Run, a: nat, i: int, m: Msg)
    requires run.Of(c, ttl) && a < |run.states|
    ensures var s := run.states[a];
            && (i in s.nodes && s.nodes[i].raft.Term() > 0 ==> PollCarried(c, s.h.grants, s.nodes[i].raft.Term()))
            && (i in s.nodes && s.nodes[i].raft.disk.term > 0 ==> PollCarried(c, s.h.grants, s.nodes[i].raft.disk.term))
            && (m in s.net && ClaimedTerm(m) > 0 ==> PollCarried(c, s.h.grants, ClaimedTerm(m)))
  {
    hide HistoryOk, NodeOk, MsgOk, Run.Of, BallotOk, Configuration.HasQuorum, ClaimedTerm, PollCarried;
    RunOk(c, ttl, run, a);
    var s := run.states[a];
    if i in s.nodes {
      BallotFacts(c, ttl, s.h, i, s.nodes[i]);
      PolledTerm(c, s.h, s.nodes[i].raft.Term());
      PolledTerm(c, s.h, s.nodes[i].raft.disk.term);
    }
    if m in s.net {
      ClaimWasPolled(ttl, s.h, m);
      PolledTerm(c, s.h, ClaimedTerm(m));
    }
  }

  lemma ClaimWasPolled(ttl: int, h: History, m: Msg)
    requires MsgOk(ttl, h, m)
    ensures TermPolled(h.polls, ClaimedTerm(m))
  {
    hide AppendReqOk, SnapReqOk, Evidence;
  }

  lemma PolledTerm(c: Configuration, h: History, t: int)
    requires HistoryOk(c, h)
    ensures t in h.polls ==> PollCarried(c, h.grants, t)
  {
    if t in h.polls {
      assert SaidYes(h.grants, h.polls[t].candidate, t, h.polls[t].quorum);
    }
  }
}
