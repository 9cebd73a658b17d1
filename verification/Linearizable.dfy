/** ReadIndex is linearizable: section 8 of the Raft paper and section 6.4 of Ongaro's dissertation,
    for the round-number barrier of internal/engine/quorum.go. */
module Linearizable {
  import opened Membership
  import opened HeadCount
  import opened Consensus
  import opened Ledger
  import opened Cluster
  import opened Invariant
  import opened Replication
  import opened Runs
  import opened Safety
  import opened Ballots
  import opened Reads
  import opened Waiters

  /** The servers that confirmed a read had not left its term when it was admitted, so no later
      leader's electors can be among them: nothing had been committed above the read's index. */
  lemma NothingCommittedAbove(c: Configuration, h: History, read: Read, t: int, k: int)
    requires HistoryOk(c, h) && HeadsSuffice(c, read.leader) && read in h.released && read.floored
             && (t, k) in read.commits
    ensures k <= read.readIndex
  {
    hide SeenOk, WrittenOk, PollsOk, HeadsSuffice;
    assert ReadOk(h.reigns, h.commits, h.seen, read);
    if t > read.term {
      assert ReignOk(c, h.votes, h.bids, h.reigns, t);
      MajoritiesMeet(c.voters.Keys, h.released[read], h.reigns[t].electors);
      assert false;
    }
  }

  lemma DecidedBelow(c: Configuration, h: History, h': History, read: Read)
    requires HistoryOk(c, h) && HistoryOk(c, h') && HeadsSuffice(c, read.leader)
    requires read in h'.released && read.floored && read.commits == h.commits.Keys
    ensures |Decided(h)| <= read.readIndex
  {
    hide HistoryOk, Decided, HeadsSuffice;
    DecidedIs(c, h);
    LedgerCommits(c, h);
    if Decided(h) == [] {
      ReadIndexNonNegative(c, h', read);
    } else {
      var t, n :| (t, n) in h.commits && Decided(h) == Stored(h.reigns, t, n);
      NothingCommittedAbove(c, h', read, t, n);
    }
  }

  lemma ReadIndexNonNegative(c: Configuration, h: History, read: Read)
    requires HistoryOk(c, h) && read in h.released
    ensures read.readIndex >= 0
  {
    assert ReadOk(h.reigns, h.commits, h.seen, read);
  }

  /** A released read's index is at least everything committed anywhere in the cluster when the
      read was admitted, provided the leader had its no-op in the log or no entry of an earlier
      term above its commit index. So whichever member has applied through it by then answers from a state that
      includes all of that. */
  lemma ReadsAreLinearizable(c: Configuration, ttl: int, run: Run, a: nat, b: nat, i: int, awaitApply: bool, j: int)
    requires run.Of(c, ttl) && a <= b < |run.states| && HeadsSuffice(c, i)
    requires var s := run.states[a];
             var s' := run.states[b];
             && i in s.nodes && Floored(s.nodes[i]) && j in s'.nodes
             && Admitted(s.h, i, s.nodes[i], awaitApply) in s'.h.released
    ensures var s := run.states[a];
            var s' := run.states[b];
            var read := Admitted(s.h, i, s.nodes[i], awaitApply);
            && |Decided(s.h)| <= read.readIndex
            && (s'.nodes[j].raft.lastApplied >= read.readIndex
                ==> Serves(ttl, s'.nodes[j], Decided(s.h), Decided(s'.h)))
  {
    hide HistoryOk, NodeOk, MsgOk, Grows, Run.Of, Decided, MemberFollows, SnapshotFollows, HeadsSuffice, Floored;
    TwoPoints(c, ttl, run, a, b);
    OneDecidedLog(c, ttl, run, a, b);
    OneDecidedLog(c, ttl, run, b, b);
    var s := run.states[a];
    var s' := run.states[b];
    var read := Admitted(s.h, i, s.nodes[i], awaitApply);
    DecidedBelow(c, s.h, s'.h, read);
    if s'.nodes[j].raft.lastApplied >= read.readIndex {
      AppliedServes(ttl, s'.nodes[j], Decided(s.h), Decided(s'.h));
    }
  }

  /** The member's state machine is a replay of the decided log that includes all of `past`. */
  ghost predicate Serves(ttl: int, n: Node, past: Log, decided: Log) {
    exists k :: |past| <= k <= |decided| && past <= decided[..k] && n.machine == Replayed(ttl, decided[..k])
  }

  lemma AppliedServes(ttl: int, n: Node, past: Log, decided: Log)
    requires MemberFollows(ttl, n, decided) && past <= decided && n.raft.lastApplied >= |past|
    ensures Serves(ttl, n, past, decided)
  {
    hide Replayed;
    assert past <= decided[..n.raft.lastApplied];
  }

  // ---- Which reads are released ----

  /** The peers whose last acknowledged round was started after the read was admitted. */
  ghost function Confirmers(c: Configuration, i: int, n: Node, barrier: int): set<int> {
    set p | p in c.Peers(i) && MatchOf(n.engine.lastAck, p) > barrier
  }

  /** Everything but the count of heads. */
  ghost predicate ReadReady(n: Node, read: Read) {
    && n.raft.role == Leader && n.raft.Term() == read.term && n.engine.noopIndex <= n.raft.commitIndex
    && (read.awaitApply ==> n.raft.lastApplied >= read.readIndex)
  }

  lemma ConfirmersAre(c: Configuration, ttl: int, h: History, i: int, n: Node, read: Read)
    requires HistoryOk(c, h) && NodeOk(c, ttl, h, i, n) && n.raft.role == Leader && read in n.engine.pending
    ensures Confirming(n.engine.lastAck, read.barrier) == Confirmers(c, i, n, read.barrier)
    ensures n.raft.config == c && c.voters != map[]
  {
    hide LogOk, BallotOk, KeepsOk, CommitOk, MachineOk, LeaderOk, PollingOk, Configuration.Peers, LedgerOk;
    MemberFacts(c, ttl, h, i, n);
    assert read in h.admitted;
    assert ReadOk(h.reigns, h.commits, h.seen, read);
    ConfirmersArePeers(c, ttl, h, i, n, read.barrier);
  }

  /** At any point of a run, of the reads waiting at a leader exactly these are released, with their own
      index: the no-op is committed, what is to be read is applied where it is read here, and the heads
      counted are enough. Where the head count is sound, that is: the leader and the peers that answered a
      round started since are a quorum. */
  lemma ReadReleasedExactlyWhen(c: Configuration, ttl: int, run: Run, a: nat, i: int, xs: seq<Read>, read: Read)
    requires run.Of(c, ttl) && a < |run.states| && i in run.states[a].nodes && read in xs
    requires run.states[a].nodes[i].raft.role == Leader && read in run.states[a].nodes[i].engine.pending
    ensures var n := run.states[a].nodes[i];
            var acks := Confirmers(c, i, n, read.barrier);
            var released := (read, Index(read.readIndex)) in Sent(xs, ReadDecision(n));
            && (released <==> ReadReady(n, read) && Counted(c, acks))
            && (read !in ReleaseRead(run.states[a].h, i, n, read).node.engine.pending <==> released)
            && (HeadsSuffice(c, i) ==> (released <==> ReadReady(n, read) && c.HasQuorum({i} + acks)))
  {
    hide NodeOk, HistoryOk, MsgOk, Run.Of, HeadsSuffice, Configuration.Peers, Configuration.HasQuorum;
    RunOk(c, ttl, run, a);
    var s := run.states[a];
    var n := s.nodes[i];
    ConfirmersAre(c, ttl, s.h, i, n, read);
    FireReadsExactly(xs, n, read);
    if HeadsSuffice(c, i) {
      CountIsQuorum(c, i, Confirmers(c, i, n, read.barrier));
    }
  }
}
