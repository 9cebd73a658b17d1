/** Linearizable reads, giving up, stepping down and restarting keep the invariant. */
module Reads {
  import opened Membership
  import opened HeadCount
  import opened RaftLog
  import opened Consensus
  import opened Ledger
  import opened Cluster
  import opened Invariant
  import opened Frames
  import opened Replication
  import opened Ballots

  // ---- Admission ----

  /** Everything committed in an earlier term is in the log the leader was elected with. */
  lemma EarlierIsBelow(c: Configuration, h: History, t: int, k: int, term: int)
    requires HistoryOk(c, h) && (t, k) in h.commits && t < term && term in h.reigns
    ensures k <= |h.reigns[term].init|
  {
    LeaderCompleteness(c, h.votes, h.bids, h.reigns, h.acks, h.commits, t, k, term);
    LedgerCommits(c, h);
  }

  /** The electors of a later term have seen it. */
  lemma ElectorsMovedOn(c: Configuration, h: History, t: int)
    requires HistoryOk(c, h) && t in h.reigns
    ensures forall v :: v in h.reigns[t].electors ==> v in h.seen && h.seen[v] >= t
  {
    assert ReignOk(c, h.votes, h.bids, h.reigns, t);
  }

  lemma LeaderReads(c: Configuration, ttl: int, h: History, i: int, n: Node)
    requires HistoryOk(c, h) && NodeOk(c, ttl, h, i, n) && n.raft.role == Leader
    ensures var t := n.raft.Term();
            && t in h.reigns && h.reigns[t].leader == i && n.engine.roundSeq == h.reigns[t].rounds >= 0
            && (n.engine.noopIndex == 0 || n.engine.noopIndex == |h.reigns[t].init| + 1)
            && (forall k :: (t, k) in h.commits ==> k <= n.raft.commitIndex)
            && (forall u, k :: (u, k) in h.commits ==> u in h.reigns)
  {
    LedgerCommits(c, h);
  }

  /** An entry of a leader's log is of its own term exactly when it is above the log it was elected with. */
  lemma OwnEntryExactlyWhen(c: Configuration, h: History, t: int, k: int)
    requires HistoryOk(c, h) && t in h.reigns && 1 <= k <= |h.reigns[t].log|
    ensures TermOf(h.reigns[t].log, k) == t <==> k > |h.reigns[t].init|
  {
    assert ReignOk(c, h.votes, h.bids, h.reigns, t);
  }

  lemma FirstLogShorter(c: Configuration, h: History, t: int)
    requires HistoryOk(c, h) && t in h.reigns
    ensures |h.reigns[t].init| <= |h.reigns[t].log| && t >= 1
  {
    assert ReignOk(c, h.votes, h.bids, h.reigns, t);
  }

  /** A leader pins its reads at or above the log it was elected with, where earlier terms' commits lie,
      exactly when it has a floor; and it has one exactly when its no-op is in the log, an entry of its
      term is committed, or all of that first log is. */
  lemma PinnedExactlyWhenFloored(c: Configuration, ttl: int, h: History, i: int, n: Node, awaitApply: bool)
    requires HistoryOk(c, h) && NodeOk(c, ttl, h, i, n) && n.raft.role == Leader
    ensures n.raft.Term() in h.reigns
    ensures var first := |h.reigns[n.raft.Term()].init|;
            && (Admitted(h, i, n, awaitApply).readIndex >= first <==> Floored(n))
            && (Floored(n) <==> || n.engine.noopIndex > 0
                                || n.log.TermAt(n.raft.commitIndex) == n.raft.Term()
                                || n.raft.commitIndex == first)
  {
    hide HistoryOk, NodeOk, LedgerOk, MachineOk, LogState.TermAt, LogState.LastIndex;
    LeaderReads(c, ttl, h, i, n);
    LeaderFacts(c, ttl, h, i, n);
    var t, k := n.raft.Term(), n.raft.commitIndex;
    assert n.log.lastIncludedIndex <= k && 0 <= k <= |h.full[i]|;
    hide CommitOk, Represents, TermOf;
    FirstLogShorter(c, h, t);
    TermsAround(n.log, h.full[i], k);
    if k >= 1 {
      OwnEntryExactlyWhen(c, h, t, k);
    }
    if k < |h.full[i]| {
      OwnEntryExactlyWhen(c, h, t, k + 1);
    }
  }

  lemma TermsAround(s: LogState, full: Log, k: int)
    requires Represents(s, full) && s.lastIncludedIndex <= k <= |full|
    ensures s.LastIndex() == |full| && s.TermAt(k) == TermOf(full, k) && s.TermAt(k + 1) == TermOf(full, k + 1)
    ensures TermOf(full, 0) == 0 && TermOf(full, |full| + 1) == 0
  {
    AccessorsAgree(s, full, k);
    AccessorsAgree(s, full, k + 1);
    LastAgrees(s, full);
  }

  lemma AdmittedReadOk(c: Configuration, ttl: int, h: History, i: int, n: Node, awaitApply: bool)
    requires HistoryOk(c, h) && NodeOk(c, ttl, h, i, n) && n.raft.role == Leader
    ensures ReadOk(h.reigns, h.commits, h.seen, Admitted(h, i, n, awaitApply))
  {
    hide HistoryOk, NodeOk, Floored;
    LeaderReads(c, ttl, h, i, n);
    var read := Admitted(h, i, n, awaitApply);
    forall t, k | (t, k) in read.commits
      ensures t <= read.term && read.floored ==> k <= read.readIndex
      ensures t > read.term ==> t in h.reigns && forall v :: v in h.reigns[t].electors
                                                             ==> v in read.terms && read.terms[v] >= t
    {
      if t < read.term {
        EarlierIsBelow(c, h, t, k, read.term);
        PinnedExactlyWhenFloored(c, ttl, h, i, n, awaitApply);
      } else if t > read.term {
        ElectorsMovedOn(c, h, t);
      }
    }
  }

  lemma AdmitHistory(c: Configuration, h: History, i: int, read: Read)
    requires HistoryOk(c, h) && ReadOk(h.reigns, h.commits, h.seen, read) && read.barrier >= h.reigns[read.term].rounds
    ensures HistoryOk(c, h.(admitted := h.admitted + {read})) && Extends(h, h.(admitted := h.admitted + {read}), i)
  {
    hide LedgerOk, SeenOk, PollsOk, WrittenOk, ReadOk;
    hide OthersSame, SeenGrows, VotesGrow, BidsGrow, ReignsGrow, ReignsOf, AcksGrow, CommitsGrow;
    ExtendsSelf(h, i);
    assert ReadsOk(h.reigns, h.commits, h.seen, h.admitted);
  }

  lemma AdmitNode(c: Configuration, ttl: int, h: History, i: int, n: Node, read: Read)
    requires NodeOk(c, ttl, h, i, n) && n.raft.role == Leader && read.leader == i && n.raft.Term() in h.reigns
    requires read.term == n.raft.Term() && read.barrier >= h.reigns[read.term].rounds
    ensures NodeOk(c, ttl, h.(admitted := h.admitted + {read}), i,
                   n.(engine := n.engine.(pending := n.engine.pending + {read})))
  {
    hide LogOk, BallotOk, KeepsOk, RoundsOk, CommitOk, MachineOk, LeaderOk;
    RoundsStay(c, h.reigns, h.reigns, h.admitted, h.admitted + {read}, i, n.raft.Term(), n.engine);
    RoundsIgnorePending(c, h.reigns, h.admitted + {read}, i, n.raft.Term(), n.engine, n.engine.pending + {read});
  }

  lemma RoundsIgnorePending(c: Configuration, reigns: Reigns, adm: set<Read>, i: int, t: int, e: Engine,
                            pending: set<Read>)
    requires RoundsOk(c, reigns, adm, i, t, e)
    ensures RoundsOk(c, reigns, adm, i, t, e.(pending := pending))
  {
  }

  lemma AdmitReadOk(c: Configuration, ttl: int, h: History, i: int, n: Node, awaitApply: bool)
    requires HistoryOk(c, h) && NodeOk(c, ttl, h, i, n)
    ensures StepOk(c, ttl, h, i, AdmitRead(h, i, n, awaitApply))
  {
    hide HistoryOk, NodeOk, Extends, ReadOk;
    ExtendsSelf(h, i);
    if n.raft.role == Leader {
      LeaderReads(c, ttl, h, i, n);
      AdmittedReadOk(c, ttl, h, i, n, awaitApply);
      var read := Admitted(h, i, n, awaitApply);
      AdmitHistory(c, h, i, read);
      AdmitNode(c, ttl, h, i, n, read);
    }
  }

  // ---- Release ----

  lemma ReleasedEvidence(c: Configuration, ttl: int, h: History, i: int, n: Node, read: Read, v: int)
    requires HistoryOk(c, h) && NodeOk(c, ttl, h, i, n) && read in n.engine.pending && ReadSatisfied(n, read)
    requires v == i || v in Confirming(n.engine.lastAck, read.barrier)
    ensures v in read.terms && read.terms[v] <= read.term
  {
    hide LedgerOk, SeenOk, PollsOk, WrittenOk, LogOk, BallotOk, KeepsOk, CommitOk, MachineOk, LeaderOk, PollingOk,
         Configuration.Peers;
    assert read in h.admitted;
    assert ReadOk(h.reigns, h.commits, h.seen, read);
    if v != i {
      assert Evidence(h.reigns, h.admitted, n.raft.Term(), v, n.engine.lastAck[v]);
    }
  }

  lemma ConfirmersArePeers(c: Configuration, ttl: int, h: History, i: int, n: Node, barrier: int)
    requires NodeOk(c, ttl, h, i, n) && n.raft.role == Leader
    ensures Confirming(n.engine.lastAck, barrier) <= c.Peers(i).Keys && n.raft.config == c
  {
    hide LogOk, BallotOk, KeepsOk, CommitOk, MachineOk, LeaderOk, PollingOk, ClientsOk, Evidence, Configuration.Peers;
    forall p | p in Confirming(n.engine.lastAck, barrier)
      ensures p in c.Peers(i).Keys
    {
      assert p in n.engine.lastAck;
    }
  }

  lemma ReleaseQuorum(c: Configuration, ttl: int, h: History, i: int, n: Node, read: Read)
    requires HistoryOk(c, h) && NodeOk(c, ttl, h, i, n) && ReadSatisfied(n, read) && HeadsSuffice(c, i)
    ensures c.HasQuorum({i} + Confirming(n.engine.lastAck, read.barrier))
  {
    hide HistoryOk, NodeOk, HeadsSuffice, Configuration.Peers, Configuration.HasQuorum, Confirming;
    MemberFacts(c, ttl, h, i, n);
    ConfirmersArePeers(c, ttl, h, i, n, read.barrier);
    CountIsQuorum(c, i, Confirming(n.engine.lastAck, read.barrier));
  }

  lemma ReleaseHistory(c: Configuration, h: History, i: int, read: Read, confirmed: set<int>)
    requires HistoryOk(c, h) && read in h.admitted && (HeadsSuffice(c, read.leader) ==> c.HasQuorum(confirmed))
    requires forall v :: v in confirmed ==> v in read.terms && read.terms[v] <= read.term
    ensures HistoryOk(c, h.(released := h.released[read := confirmed]))
            && Extends(h, h.(released := h.released[read := confirmed]), i)
  {
    hide LedgerOk, SeenOk, PollsOk, WrittenOk, ReadsOk, Configuration.HasQuorum, HeadsSuffice;
    hide OthersSame, SeenGrows, VotesGrow, BidsGrow, ReignsGrow, ReignsOf, AcksGrow, CommitsGrow, AdmittedGrows;
    ExtendsSelf(h, i);
  }

  lemma PendingAdmitted(c: Configuration, ttl: int, h: History, i: int, n: Node)
    requires NodeOk(c, ttl, h, i, n)
    ensures n.engine.pending <= h.admitted && (forall read :: read in n.engine.pending ==> read.leader == i)
  {
  }

  lemma NodeIgnoresReleases(c: Configuration, ttl: int, h: History, i: int, n: Node, released: map<Read, set<int>>)
    requires NodeOk(c, ttl, h, i, n)
    ensures NodeOk(c, ttl, h.(released := released), i, n)
  {
  }

  lemma ReleaseReadOk(c: Configuration, ttl: int, h: History, i: int, n: Node, read: Read)
    requires HistoryOk(c, h) && NodeOk(c, ttl, h, i, n)
    ensures StepOk(c, ttl, h, i, ReleaseRead(h, i, n, read))
  {
    hide HistoryOk, NodeOk, Extends, ReadSatisfied, Confirming, Configuration.HasQuorum, HeadsSuffice;
    ExtendsSelf(h, i);
    if read in n.engine.pending && ReadSatisfied(n, read) {
      var confirmed := {i} + Confirming(n.engine.lastAck, read.barrier);
      PendingAdmitted(c, ttl, h, i, n);
      if HeadsSuffice(c, i) {
        ReleaseQuorum(c, ttl, h, i, n, read);
      }
      forall v | v in confirmed
        ensures v in read.terms && read.terms[v] <= read.term
      {
        ReleasedEvidence(c, ttl, h, i, n, read, v);
      }
      ReleaseHistory(c, h, i, read, confirmed);
      EngineShrinks(c, ttl, h, i, n, n.engine.(pending := n.engine.pending - {read}));
      NodeIgnoresReleases(c, ttl, h, i, n.(engine := n.engine.(pending := n.engine.pending - {read})),
                          h.released[read := confirmed]);
    }
  }

  // ---- Giving up and stepping down ----

  lemma DropClientsOk(c: Configuration, ttl: int, h: History, i: int, n: Node, waiters: set<Waiter>, gone: set<Read>)
    requires HistoryOk(c, h) && NodeOk(c, ttl, h, i, n)
    ensures StepOk(c, ttl, h, i, DropClients(h, n, waiters, gone))
  {
    hide HistoryOk, NodeOk, Extends;
    ExtendsSelf(h, i);
    EngineShrinks(c, ttl, h, i, n, DropClients(h, n, waiters, gone).node.engine);
  }

  lemma StepDownOk(c: Configuration, ttl: int, h: History, i: int, n: Node)
    requires HistoryOk(c, h) && NodeOk(c, ttl, h, i, n)
    ensures StepOk(c, ttl, h, i, StepDown(h, n))
  {
    hide HistoryOk, NodeOk, Extends, BallotOk;
    BallotFacts(c, ttl, h, i, n);
    SameSeen(h, i);
    StepsDown(c, ttl, h, i, n, n.raft.Term(), 0, Durable, n.engine.(waiters := {}, pending := {}));
  }

  // ---- Restart ----

  lemma RestartedLogIs(ttl: int, n: Node, full: Log)
    requires Represents(n.log, full)
             && MachineOk(ttl, full, n.log.lastIncludedIndex, n.raft.lastApplied, n.machine, n.snapshot)
    ensures Restarted(n).log == Recovered(n.log.cache).RestoreOffset(n.log.lastIncludedIndex, n.log.lastIncludedTerm)
  {
    hide Fold, LogState.RestoreOffset, Recovered;
    RestartRefines(n.log, full);
  }

  lemma RestartedLog(c: Configuration, ttl: int, h: History, i: int, n: Node)
    requires NodeOk(c, ttl, h, i, n)
    ensures LogOk(h.reigns, h.full[i], Restarted(n).log, n.raft.disk.term)
    ensures Restarted(n).log.lastIncludedIndex == n.log.lastIncludedIndex && Restarted(n).log.Aligned()
  {
    hide BallotOk, KeepsOk, CandidateOk, LeaderOk, RoundsOk, ClientsOk, PollingOk, CommitOk, MachineOk, Restarted,
         Represents, Recovered, Grounded;
    RestartedLogIs(ttl, n, h.full[i]);
    RestartRefines(n.log, h.full[i]);
    assert n.raft.Term() <= n.raft.disk.term by {
      DiskIsNewer(c, ttl, h, i, n);
    }
  }

  lemma DiskIsNewer(c: Configuration, ttl: int, h: History, i: int, n: Node)
    requires NodeOk(c, ttl, h, i, n)
    ensures n.raft.Term() <= n.raft.disk.term
  {
  }

  lemma RestartedMachine(c: Configuration, ttl: int, h: History, i: int, n: Node)
    requires NodeOk(c, ttl, h, i, n)
    ensures var base, r := n.log.lastIncludedIndex, Restarted(n);
            && CommitOk(h.reigns, h.commits, h.full[i], n.raft.disk.term, base, r.raft.lastApplied, r.raft.commitIndex)
            && MachineOk(ttl, h.full[i], base, r.raft.lastApplied, r.machine, r.snapshot)
  {
    hide LogOk, KeepsOk, CandidateOk, LeaderOk, RoundsOk, ClientsOk, PollingOk, CommittedBy;
    var base, full := n.log.lastIncludedIndex, h.full[i];
    CommittedByPrefix(h.reigns, h.commits, full[..n.raft.commitIndex], n.raft.Term(), base);
    assert full[..n.raft.commitIndex][..base] == full[..base];
    CommittedLonger(h.reigns, h.commits, full[..base], n.raft.Term(), n.raft.disk.term);
  }

  lemma RestartOk(c: Configuration, ttl: int, h: History, i: int, n: Node)
    requires HistoryOk(c, h) && NodeOk(c, ttl, h, i, n)
    ensures StepOk(c, ttl, h, i, Restart(h, i, n))
  {
    hide HistoryOk, Extends, LogOk, KeepsOk, CandidateOk, LeaderOk, RoundsOk, CommitOk, MachineOk,
         LogState.RestoreOffset, Recovered;
    SeenRaised(c, h, i, n.raft.disk.term);
    RestartedLog(c, ttl, h, i, n);
    RestartedMachine(c, ttl, h, i, n);
    KeepsLonger(h.reigns, h.acks, i, n.raft.Term(), n.raft.disk.term, h.full[i]);
  }
}
