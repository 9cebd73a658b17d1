/** What the no-op floor is for. When the append of the term's no-op fails, the engine goes on
    leading without a floor, and a read can be answered from a state that lacks a write which
    was acknowledged before the read arrived. One server and seven steps are enough. */
module StaleRead {
  import opened Membership
  import opened HeadCount
  import opened Store
  import opened RaftLog
  import opened Consensus
  import opened Cluster

  const SOLO := Configuration(map[1 := "solo"], map[], map[])
  const MARK := Command(Noop, "", "", "", 0, 0)
  const PUT := Command(Set, "k", "v", "", 0, 0)
  const ENTRIES := [LogEntry(1, 1, MARK), LogEntry(2, 1, PUT)]

  ghost predicate IsSolo(c: Configuration) {
    && c.Peers(1) == map[] && c.All().Keys == {1} && c.voters != map[] && c.voters.Keys == {1} && c.oldVoters == map[]
    && |c.voters| == 1
  }

  lemma SoloMembers()
    ensures SOLO.Valid() && IsSolo(SOLO)
  {
    assert SOLO.All() == map[1 := "solo"];
    assert SOLO.Peers(1) == map[];
    assert |SOLO.voters.Keys| == 1;
  }

  /** The only member, with k of the two entries in its log and nothing applied. */
  ghost predicate SoloNode(n: Node, role: Role, term: int, k: nat, commit: int, noopIndex: int, pending: set<Read>,
                           waiters: set<Waiter>) {
    && k <= 2
    && n.raft.id == 1 && IsSolo(n.raft.config) && n.raft.role == role && n.raft.lastApplied == 0
    && n.raft.commitIndex == commit
    && n.raft.persistent == n.raft.disk && n.raft.Term() == term
    && n.log == LogState(ENTRIES[..k], k + 1, 1, 0, 0)
    && n.machine == FRESH && n.snapshot == None
    && n.engine.noopIndex == noopIndex && n.engine.lastAck.Keys == {} && n.engine.pending == pending
    && n.engine.waiters == waiters
    && n.engine.roundSeq == 0
  }

  ghost predicate Solo(s: State, role: Role, term: int, k: nat, commit: int, noopIndex: int, pending: set<Read>,
                       waiters: set<Waiter>) {
    s.nodes.Keys == {1} && 1 in s.h.full && SoloNode(s.nodes[1], role, term, k, commit, noopIndex, pending, waiters)
  }

  /** A step of the only member replaces it and the history by what the step's function says. */
  lemma Stepped(s: State, step: Step)
    requires s.nodes.Keys == {1} && 1 in s.h.full && s.nodes[1].raft.config.voters != map[] && step.who == 1
             && !step.Deliver?
    ensures var e := Act(s.ttl, s.h, 1, s.nodes[1], step);
            Next(s, step).h == e.h && Next(s, step).nodes == s.nodes[1 := e.node] && Next(s, step).nodes.Keys == {1}
  {
    hide Act;
  }

  lemma Boots(ttl: int)
    requires Bootable(SOLO)
    ensures Solo(Start(SOLO, ttl), Follower, 0, 0, 0, 0, {}, {})
  {
    SoloMembers();
    hide Configuration.Peers, Configuration.All, Uniform;
    assert ENTRIES[..0] == [];
  }

  lemma SoloLead(h: History, n: Node, term: int, k: nat, noop: Option<Command>)
    requires SoloNode(n, Candidate, term, k, 0, 0, {}, {}) && 1 in h.full
    requires noop == None || (noop == Some(MARK) && k == 0 && term == 1)
    ensures var e := Lead(h, 1, n, noop);
            && (if noop == None then SoloNode(e.node, Leader, term, k, 0, 0, {}, {})
                else SoloNode(e.node, Leader, 1, 1, 0, 1, {}, {}))
            && 1 in e.h.full && term in e.h.reigns && e.h.written == h.written
  {
    hide Configuration.Peers, Configuration.All;
    assert noop == None || ENTRIES[..0] + [LogEntry(1, 1, MARK)] == ENTRIES[..1];
  }

  lemma SoloCampaign(h: History, n: Node, term: int, k: nat)
    requires SoloNode(n, Follower, term, k, 0, 0, {}, {}) && 1 in h.full
    ensures var e := Campaign(h, 1, n.(engine := n.engine.(preVotes := {1})), Durable);
            && SoloNode(e.node, Candidate, term + 1, k, 0, 0, {}, {}) && e.h.written == h.written
            && e.node.raft.role == Candidate && e.node.raft.Term() == term + 1
  {
    hide Configuration.Peers, Configuration.All, AskVotes, IsSolo;
  }

  lemma SoloFacts(n: Node, role: Role, term: int, k: nat, commit: int, noopIndex: int, pending: set<Read>,
                  waiters: set<Waiter>)
    requires SoloNode(n, role, term, k, commit, noopIndex, pending, waiters)
    ensures n.raft.role == role && n.raft.Term() == term && n.raft.config.Peers(1) == map[]
            && n.raft.config.voters != map[]
  {
  }

  /** A timeout makes the only server leader at once; the no-op may fail to be appended. */
  lemma Wins(s: State, term: int, k: nat, noop: Option<Command>)
    requires Solo(s, Follower, term, k, 0, 0, {}, {}) && (noop == None || (noop == Some(MARK) && k == 0 && term == 0))
    ensures var s' := Next(s, Timeout(1, Durable, noop));
            && (if noop == None then Solo(s', Leader, term + 1, k, 0, 0, {}, {})
                else Solo(s', Leader, 1, 1, 0, 1, {}, {}))
            && term + 1 in s'.h.reigns && s'.h.written == s.h.written
  {
    hide Configuration.Peers, Campaign, Lead, Next, SoloNode;
    var n := s.nodes[1];
    SoloFacts(n, Follower, term, k, 0, 0, {}, {});
    SoloCampaign(s.h, n, term, k);
    var e := Campaign(s.h, 1, n.(engine := n.engine.(preVotes := {1})), Durable);
    SoloLead(e.h, e.node, term + 1, k, noop);
    Stepped(s, Timeout(1, Durable, noop));
  }

  lemma Writes(s: State)
    requires Solo(s, Leader, 1, 1, 0, 1, {}, {}) && 1 in s.h.reigns
    ensures Solo(Next(s, ClientWrite(1, PUT, true)), Leader, 1, 2, 0, 1, {}, {Waiter(2, 1, PUT)})
  {
    hide Configuration.Peers, Configuration.All, Next, IsSolo;
    SoloFacts(s.nodes[1], Leader, 1, 1, 0, 1, {}, {});
    Stepped(s, ClientWrite(1, PUT, true));
    assert ENTRIES[..1] + [LogEntry(2, 1, PUT)] == ENTRIES[..2];
  }

  lemma SoloFrontier(c: Configuration, matchIndex: map<int, int>, latest: int)
    requires IsSolo(c)
    ensures Frontier(c, matchIndex[1 := latest]) == latest
  {
    hide Configuration.Peers, Configuration.All;
    var m := matchIndex[1 := latest];
    assert Holding({1}, m, latest) == {1} && {1} * {1} == {1};
    assert Holding({1}, m, latest + 1) == {} && {1} * {} == {};
    assert c.HasQuorum({1}) && !c.HasQuorum({});
  }

  lemma TickCommits(s: State)
    requires Solo(s, Leader, 1, 2, 0, 1, {}, {Waiter(2, 1, PUT)})
    ensures var s' := Next(s, LeaderTick(1));
            Solo(s', Leader, 1, 2, 2, 1, {}, {}) && Waiter(2, 1, PUT) in s'.h.written
  {
    hide Configuration.Peers, Configuration.All, Holding;
    var n := s.nodes[1];
    SoloFrontier(n.raft.config, n.raft.matchIndex, 2);
    assert n.log.LastIndex() == 2 && n.log.TermAt(2) == 1;
    assert StillWaiting(n.engine.waiters, 2, 1) == {};
    assert Waiter(2, 1, PUT) in Answered(n.engine.waiters, 2, 1);
  }

  lemma Crashes(s: State)
    requires Solo(s, Leader, 1, 2, 2, 1, {}, {})
    ensures var s' := Next(s, Crash(1));
            Solo(s', Follower, 1, 2, 0, 0, {}, {}) && s'.h.written == s.h.written
  {
    hide Configuration.Peers, Configuration.All, Uniform, Next;
    Stepped(s, Crash(1));
  }

  lemma ReadIn(s: State, read: Read)
    requires Solo(s, Leader, 2, 2, 0, 0, {}, {}) && read == Read(1, 2, 0, 0, true, false, s.h.seen, s.h.commits.Keys)
    ensures var s' := Next(s, ReadArrives(1, true));
            Solo(s', Leader, 2, 2, 0, 0, {read}, {}) && s'.h.written == s.h.written
  {
    hide Configuration.Peers, Configuration.All, Next, IsSolo;
    SoloFacts(s.nodes[1], Leader, 2, 2, 0, 0, {}, {});
    Stepped(s, ReadArrives(1, true));
    assert {} + {read} == {read};
  }

  lemma ReadOut(s: State, read: Read)
    requires Solo(s, Leader, 2, 2, 0, 0, {read}, {}) && read.term == 2 && read.readIndex == 0
    ensures var s' := Next(s, ReadFires(1, read));
            read in s'.h.released && Solo(s', Leader, 2, 2, 0, 0, {}, {}) && s'.h.written == s.h.written
  {
    hide Configuration.Peers, Configuration.All, Next;
    var n := s.nodes[1];
    assert Confirming(n.engine.lastAck, read.barrier) == {};
    assert ReadSatisfied(n, read);
    Stepped(s, ReadFires(1, read));
  }

  /** Elect, write, commit and answer, crash, elect again without the no-op, read. */
  function Script(read: Read): seq<Step> {
    [Timeout(1, Durable, Some(MARK)), ClientWrite(1, PUT, true), LeaderTick(1), Crash(1), Timeout(1, Durable, None),
     ReadArrives(1, true), ReadFires(1, read)]
  }

  /** The states of the script up to the second election. */
  lemma Opens(ttl: int) returns (states: seq<State>)
    requires Bootable(SOLO)
    ensures |states| == 6 && states[0] == Start(SOLO, ttl)
    ensures states[1] == Next(states[0], Timeout(1, Durable, Some(MARK)))
            && states[2] == Next(states[1], ClientWrite(1, PUT, true))
    ensures states[3] == Next(states[2], LeaderTick(1)) && states[4] == Next(states[3], Crash(1))
    ensures states[5] == Next(states[4], Timeout(1, Durable, None))
    ensures Solo(states[5], Leader, 2, 2, 0, 0, {}, {}) && Waiter(2, 1, PUT) in states[5].h.written
  {
    hide Next, Solo, Start;
    var s0 := Start(SOLO, ttl);
    Boots(ttl);
    var s1 := Next(s0, Timeout(1, Durable, Some(MARK)));
    Wins(s0, 0, 0, Some(MARK));
    var s2 := Next(s1, ClientWrite(1, PUT, true));
    Writes(s1);
    var s3 := Next(s2, LeaderTick(1));
    TickCommits(s2);
    var s4 := Next(s3, Crash(1));
    Crashes(s3);
    var s5 := Next(s4, Timeout(1, Durable, None));
    Wins(s4, 1, 2, None);
    states := [s0, s1, s2, s3, s4, s5];
  }

  lemma SoloIsEmpty(s: State)
    requires Solo(s, Leader, 2, 2, 0, 0, {}, {})
    ensures 1 in s.nodes && s.nodes[1].machine.data == map[] && s.nodes[1].raft.lastApplied == 0
  {
  }

  lemma SoloBootable()
    ensures Bootable(SOLO) && HeadsSuffice(SOLO, 1)
  {
    SoloMembers();
    assert SOLO.All().Keys == {1};
    hide HeadsSuffice;
    SimpleHeadsSuffice(SOLO, 1);
  }

  /** A run in which the write of "v" was answered nil, and a read admitted after that answer is
      released to a server whose state machine is still empty, though its head count is sound. */
  lemma StaleWithoutFloor(ttl: int) returns (run: Run, read: Read)
    ensures run.Of(SOLO, ttl) && run.steps == Script(read) && HeadsSuffice(SOLO, 1)
    ensures var asked, s := run.states[5], run.states[7];
            && Waiter(2, 1, PUT) in asked.h.written
            && read in s.h.released && !read.floored
            && 1 in s.nodes && s.nodes[1].machine.data == map[] && s.nodes[1].raft.lastApplied >= read.readIndex
  {
    hide Next, Start, Solo, Bootable, HeadsSuffice;
    SoloBootable();
    var states := Opens(ttl);
    var s := states[5];
    read := Read(1, 2, 0, 0, true, false, s.h.seen, s.h.commits.Keys);
    ReadIn(s, read);
    var s6 := Next(s, ReadArrives(1, true));
    ReadOut(s6, read);
    var s7 := Next(s6, ReadFires(1, read));
    SoloIsEmpty(s7);
    run := Run(states + [s6, s7], Script(read));
    forall k | 0 <= k < 7
      ensures run.Linked(k)
    {
      if k < 5 {
        assert run.states[k] == states[k] && run.states[k + 1] == states[k + 1];
      }
    }
  }
}
