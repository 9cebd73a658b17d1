/** What the machine is for, key by key: a command executed sets or removes the one key it names, a
    recognised retransmission touches nothing, and the value of a key is that of the last write to it. */
module KeyValue {
  import opened Store
  import opened Ledger
  import opened Cluster

  function ValueAt(m: Machine, k: string): Option<string> {
    if k in m.data then Some(m.data[k]) else None
  }

  function ClockAfter(m: Machine, cmd: Command): int {
    if cmd.timestamp > m.now then cmd.timestamp else m.now
  }

  /** The session is still there after this command's sweep, if it sweeps. */
  predicate Survives(m: Machine, ttl: int, cmd: Command, id: string) {
    id in m.sessions && (m.sinceSweep + 1 < 1000 || m.sessions[id].lastUsed >= ClockAfter(m, cmd) - ttl)
  }

  /** The command is answered from the session table. */
  predicate Replayed(m: Machine, ttl: int, cmd: Command) {
    && cmd.clientID != "" && Survives(m, ttl, cmd, cmd.clientID)
    && cmd.seqNo <= m.sessions[cmd.clientID].lastSeq
  }

  predicate WritesTo(cmd: Command, k: string) {
    (cmd.op == Set || cmd.op == Delete) && cmd.key == k && k != ""
  }

  /** A command executed: the key it names has its value or none, every other key what it had; it is
      applied exactly when it is a no-op or names a key, and otherwise refused with its own error. */
  lemma ExecutedKeyByKey(m: Machine, ttl: int, index: int, cmd: Command, k: string)
    requires !Replayed(m, ttl, cmd)
    ensures var (m', o) := Apply(m, ttl, index, cmd);
            && ValueAt(m', k) == (if !WritesTo(cmd, k) then ValueAt(m, k)
                                  else if cmd.op == Set then Some(cmd.value) else None)
            && (o == Applied <==> cmd.op == Noop || ((cmd.op == Set || cmd.op == Delete) && cmd.key != ""))
            && (cmd.op == Set && cmd.key == "" ==> o == EmptySetKey(index))
            && (cmd.op == Delete && cmd.key == "" ==> o == EmptyDeleteKey(index))
            && (cmd.op.Other? ==> o == UnknownOp(cmd.op.name, index))
  {
  }

  /** A retransmission recognised: no key changes, and the answer is the one on record. */
  lemma ReplayedChangesNothing(m: Machine, ttl: int, index: int, cmd: Command, k: string)
    requires Replayed(m, ttl, cmd)
    ensures var (m', o) := Apply(m, ttl, index, cmd);
            ValueAt(m', k) == ValueAt(m, k) && o == m.sessions[cmd.clientID].outcome
  {
  }

  /** The table afterwards: the client of a command executed has its outcome on record, every other
      session is as it was, unless this command's sweep found it unused for too long. */
  lemma SessionsAfter(m: Machine, ttl: int, index: int, cmd: Command, id: string)
    ensures var (m', o) := Apply(m, ttl, index, cmd);
            && m'.now == ClockAfter(m, cmd)
            && (if !Replayed(m, ttl, cmd) && id != "" && id == cmd.clientID
                then id in m'.sessions && m'.sessions[id] == Session(cmd.seqNo, o, ClockAfter(m, cmd))
                else (id in m'.sessions <==> Survives(m, ttl, cmd, id))
                     && (id in m'.sessions ==> m'.sessions[id] == m.sessions[id]))
  {
  }

  // ---- Over logs ----

  /** The p-th command of the log was executed and set or removed this key. */
  predicate WroteAt(ttl: int, log: Log, p: nat, k: string)
    requires p < |log|
  {
    !Replayed(Fold(ttl, log[..p]), ttl, log[p].command) && WritesTo(log[p].command, k)
  }

  lemma OneMoreKey(ttl: int, log: Log, n: nat, k: string)
    requires n < |log|
    ensures ValueAt(Fold(ttl, log[..n + 1]), k)
            == if !WroteAt(ttl, log, n, k) then ValueAt(Fold(ttl, log[..n]), k)
               else if log[n].command.op == Set then Some(log[n].command.value) else None
  {
    hide Fold, Apply;
    FoldOneMore(ttl, log, n);
    var m, cmd := Fold(ttl, log[..n]), log[n].command;
    if Replayed(m, ttl, cmd) {
      ReplayedChangesNothing(m, ttl, n + 1, cmd, k);
    } else {
      ExecutedKeyByKey(m, ttl, n + 1, cmd, k);
    }
  }

  /** Between writes to it a key keeps its value. */
  lemma {:induction false} UnwrittenKeeps(ttl: int, log: Log, lo: nat, hi: nat, k: string)
    requires lo <= hi <= |log| && forall p :: lo <= p < hi ==> !WroteAt(ttl, log, p, k)
    ensures ValueAt(Fold(ttl, log[..hi]), k) == ValueAt(Fold(ttl, log[..lo]), k)
    decreases hi
  {
    hide Fold, WroteAt;
    if lo < hi {
      UnwrittenKeeps(ttl, log, lo, hi - 1, k);
      OneMoreKey(ttl, log, hi - 1, k);
    }
  }

  /** For every log and key: the value is that of the last write to it. */
  lemma LastWriteWins(ttl: int, log: Log, p: nat, k: string)
    requires p < |log| && WroteAt(ttl, log, p, k) && forall q :: p < q < |log| ==> !WroteAt(ttl, log, q, k)
    ensures ValueAt(Fold(ttl, log), k)
            == if log[p].command.op == Set then Some(log[p].command.value) else None
  {
    hide Fold, WroteAt;
    assert log[..|log|] == log;
    OneMoreKey(ttl, log, p, k);
    UnwrittenKeeps(ttl, log, p + 1, |log|, k);
  }

  /** And a key never written has none. */
  lemma NeverWritten(ttl: int, log: Log, k: string)
    requires forall p :: 0 <= p < |log| ==> !WroteAt(ttl, log, p, k)
    ensures ValueAt(Fold(ttl, log), k) == None
  {
    assert ValueAt(Fold(ttl, []), k) == None;
    hide Fold, WroteAt;
    assert log[..|log|] == log && log[..0] == [];
    UnwrittenKeeps(ttl, log, 0, |log|, k);
  }
}
