/** The deduplicating key-value state machine (internal/store/statemachine.go). */
module Store {

  datatype Op = Set | Delete | Noop | Other(name: string)

  /** Timestamp is stamped by the leader and is the only clock the machine has. */
  datatype Command = Command(op: Op, key: string, value: string, clientID: string, seqNo: nat, timestamp: int)

  /** What Apply returns; the error texts of the source, each naming the index it happened at. */
  datatype Outcome =
    | Applied
    | EmptySetKey(index: int)
    | EmptyDeleteKey(index: int)
    | UnknownOp(name: string, index: int)

  datatype Session = Session(lastSeq: nat, outcome: Outcome, lastUsed: int)

  datatype Machine = Machine(data: map<string, string>, sessions: map<string, Session>, now: int, sinceSweep: int)

  const SWEEP_INTERVAL := 1000

  const FRESH := Machine(map[], map[], 0, 0)

  // ---- One command ----

  function Tick(m: Machine, cmd: Command): Machine {
    if cmd.timestamp > m.now then m.(now := cmd.timestamp) else m
  }

  /** Sessions still within the time to live. */
  function Live(sessions: map<string, Session>, cutoff: int): map<string, Session> {
    sessions - (set id | id in sessions && sessions[id].lastUsed < cutoff)
  }

  function Expire(m: Machine, ttl: int): Machine {
    if m.sinceSweep + 1 < SWEEP_INTERVAL then
      m.(sinceSweep := m.sinceSweep + 1)
    else
      m.(sinceSweep := 0, sessions := Live(m.sessions, m.now - ttl))
  }

  function Execute(data: map<string, string>, index: int, cmd: Command): (map<string, string>, Outcome) {
    match cmd.op
    case Set => if cmd.key == "" then (data, EmptySetKey(index)) else (data[cmd.key := cmd.value], Applied)
    case Delete => if cmd.key == "" then (data, EmptyDeleteKey(index)) else (data - {cmd.key}, Applied)
    case Noop => (data, Applied)
    case Other(name) => (data, UnknownOp(name, index))
  }

  /** The command is one this table has already recorded an outcome for. */
  predicate IsDuplicate(sessions: map<string, Session>, cmd: Command) {
    cmd.clientID != "" && cmd.clientID in sessions && cmd.seqNo <= sessions[cmd.clientID].lastSeq
  }

  /** Apply once the clock has moved and the sweep has run. */
  function Perform(m: Machine, index: int, cmd: Command): (Machine, Outcome) {
    if IsDuplicate(m.sessions, cmd) then
      (m, m.sessions[cmd.clientID].outcome)
    else
      var (data, outcome) := Execute(m.data, index, cmd);
      var sessions := if cmd.clientID == "" then m.sessions
                      else m.sessions[cmd.clientID := Session(cmd.seqNo, outcome, m.now)];
      (m.(data := data, sessions := sessions), outcome)
  }

  function Apply(m: Machine, ttl: int, index: int, cmd: Command): (Machine, Outcome) {
    Perform(Expire(Tick(m, cmd), ttl), index, cmd)
  }

  /** Apply the commands in order, the first at index from + 1. */
  function ApplyAll(m: Machine, ttl: int, from: int, cmds: seq<Command>): (Machine, seq<Outcome>)
    decreases |cmds|
  {
    if cmds == [] then (m, [])
    else
      var (m', o) := Apply(m, ttl, from + 1, cmds[0]);
      var (m'', os) := ApplyAll(m', ttl, from + 1, cmds[1..]);
      (m'', [o] + os)
  }

  // ---- Snapshots ----

  /** The serialized state. A decoded document may lack either map. */
  datatype Option<T> = None | Some(value: T)
  datatype Saved = Saved(data: Option<map<string, string>>, sessions: Option<map<string, Session>>, now: int,
                         sinceSweep: int)

  function OrEmpty<K, V>(m: Option<map<K, V>>): map<K, V> {
    match m
    case None => map[]
    case Some(v) => v
  }

  /** The machine a decoded document restores to. */
  function Decoded(s: Saved): Machine {
    Machine(OrEmpty(s.data), OrEmpty(s.sessions), s.now, s.sinceSweep)
  }

  class MemoryStateMachine {
    var data: map<string, string>
    var sessions: map<string, Session>
    var now: int
    var appliesSinceSweep: int
    var sessionTTL: int

    function State(): Machine
      reads this
    {
      Machine(data, sessions, now, appliesSinceSweep)
    }

    constructor (ttl: int)
      ensures State() == FRESH && sessionTTL == ttl
    {
      data, sessions, now, appliesSinceSweep := map[], map[], 0, 0;
      sessionTTL := ttl;
    }

    method ExpireSessions()
      modifies this`sessions, this`appliesSinceSweep
      ensures State() == Expire(old(State()), sessionTTL)
    {
      appliesSinceSweep := appliesSinceSweep + 1;
      if appliesSinceSweep < SWEEP_INTERVAL {
        return;
      }
      appliesSinceSweep := 0;

      var cutoff := now - sessionTTL;
      ghost var before := sessions;
      var rest := sessions.Keys;
      while rest != {}
        invariant rest <= before.Keys && appliesSinceSweep == 0
        invariant forall id :: id in sessions <==> id in before && (id in rest || before[id].lastUsed >= cutoff)
        invariant forall id :: id in sessions ==> sessions[id] == before[id]
        decreases rest
      {
        var id :| id in rest;
        if sessions[id].lastUsed < cutoff {
          sessions := sessions - {id};
        }
        rest := rest - {id};
      }
      assert sessions == Live(before, cutoff);
    }

    method ExecuteCommand(index: int, cmd: Command) returns (outcome: Outcome)
      modifies this`data
      ensures (data, outcome) == Execute(old(data), index, cmd)
    {
      match cmd.op {
        case Set =>
          if cmd.key == "" {
            return EmptySetKey(index);
          }
          data := data[cmd.key := cmd.value];
        case Delete =>
          if cmd.key == "" {
            return EmptyDeleteKey(index);
          }
          data := data - {cmd.key};
        case Noop =>
        case Other(name) =>
          return UnknownOp(name, index);
      }
      return Applied;
    }

    method ApplyCommand(index: int, cmd: Command) returns (outcome: Outcome)
      modifies this`data, this`sessions, this`now, this`appliesSinceSweep
      ensures (State(), outcome) == Apply(old(State()), sessionTTL, index, cmd)
    {
      if cmd.timestamp > now {
        now := cmd.timestamp;
      }
      assert State() == Tick(old(State()), cmd);
      ExpireSessions();
      if cmd.clientID != "" && cmd.clientID in sessions {
        var prev := sessions[cmd.clientID];
        if cmd.seqNo <= prev.lastSeq {
          return prev.outcome;
        }
      }
      outcome := ExecuteCommand(index, cmd);
      if cmd.clientID != "" {
        sessions := sessions[cmd.clientID := Session(cmd.seqNo, outcome, now)];
      }
    }

    method Snapshot() returns (s: Saved)
      ensures Decoded(s) == State()
    {
      s := Saved(Some(data), Some(sessions), now, appliesSinceSweep);
    }

    /** Bytes that do not decode are refused and change nothing. */
    method Restore(document: Option<Saved>) returns (ok: bool)
      modifies this`data, this`sessions, this`now, this`appliesSinceSweep
      ensures ok == document.Some?
      ensures State() == if ok then Decoded(document.value) else old(State())
    {
      if document.None? {
        return false;
      }
      var s := document.value;
      data := OrEmpty(s.data);
      sessions := OrEmpty(s.sessions);
      now := s.now;
      appliesSinceSweep := s.sinceSweep;
      return true;
    }
  }

  /** Applying a log in two runs is applying it in one. */
  lemma {:induction false} ApplyAllSplits(m: Machine, ttl: int, from: int, a: seq<Command>, b: seq<Command>)
    ensures var (m1, o1) := ApplyAll(m, ttl, from, a);
            var (m2, o2) := ApplyAll(m1, ttl, from + |a|, b);
            ApplyAll(m, ttl, from, a + b) == (m2, o1 + o2)
    decreases |a|
  {
    if a == [] {
      assert a + b == b;
      assert [] + ApplyAll(m, ttl, from, b).1 == ApplyAll(m, ttl, from, b).1;
    } else {
      assert (a + b)[1..] == a[1..] + b;
      var (m', o) := Apply(m, ttl, from + 1, a[0]);
      ApplyAllSplits(m', ttl, from + 1, a[1..], b);
      var (m1, o1) := ApplyAll(m', ttl, from + 1, a[1..]);
      var (m2, o2) := ApplyAll(m1, ttl, from + |a|, b);
      assert [o] + (o1 + o2) == ([o] + o1) + o2;
    }
  }

  /** A run that is cut by a snapshot, shipped to another machine and finished there
      ends like the uninterrupted run, and every command reports the same outcome. */
  method RunAcrossSnapshot(whole: seq<Command>, cut: nat, ttl: int, receiver: MemoryStateMachine)
    returns (outcomes: seq<Outcome>)
    requires cut <= |whole| && receiver.sessionTTL == ttl
    modifies receiver
    ensures (receiver.State(), outcomes) == ApplyAll(FRESH, ttl, 0, whole)
  {
    var sender := new MemoryStateMachine(ttl);
    outcomes := ApplyRange(sender, 0, whole[..cut]);
    var shipped := sender.Snapshot();
    var restored := receiver.Restore(Some(shipped));
    var tail := ApplyRange(receiver, cut, whole[cut..]);
    ApplyAllSplits(FRESH, ttl, 0, whole[..cut], whole[cut..]);
    assert whole == whole[..cut] + whole[cut..];
    outcomes := outcomes + tail;
  }

  method ApplyRange(sm: MemoryStateMachine, from: int, cmds: seq<Command>) returns (outcomes: seq<Outcome>)
    modifies sm
    ensures (sm.State(), outcomes) == ApplyAll(old(sm.State()), sm.sessionTTL, from, cmds)
    ensures sm.sessionTTL == old(sm.sessionTTL)
  {
    outcomes := [];
    var i := 0;
    while i < |cmds|
      invariant 0 <= i <= |cmds|
      invariant (sm.State(), outcomes) == ApplyAll(old(sm.State()), sm.sessionTTL, from, cmds[..i])
      invariant sm.sessionTTL == old(sm.sessionTTL)
    {
      ghost var before := sm.State();
      var o := sm.ApplyCommand(from + i + 1, cmds[i]);
      ApplyAllSplits(old(sm.State()), sm.sessionTTL, from, cmds[..i], [cmds[i]]);
      assert cmds[..i + 1] == cmds[..i] + [cmds[i]];
      OneCommand(before, sm.sessionTTL, from + i, cmds[i]);
      outcomes := outcomes + [o];
      i := i + 1;
    }
    assert cmds[..i] == cmds;
  }

  lemma OneCommand(m: Machine, ttl: int, from: int, cmd: Command)
    ensures var (m', o) := Apply(m, ttl, from + 1, cmd); ApplyAll(m, ttl, from, [cmd]) == (m', [o])
  {
    var (m', o) := Apply(m, ttl, from + 1, cmd);
    assert [cmd][1..] == [];
    assert ApplyAll(m', ttl, from + 1, []) == (m', []);
    assert [o] + [] == [o];
  }
}
