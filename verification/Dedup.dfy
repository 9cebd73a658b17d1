/** Exactly-once semantics with a bounded session table (internal/store/statemachine.go, section 8 of
    the Raft paper): exactly which retransmissions the swept table still recognises, and that a log
    of such commands cannot be told from one run on a machine that never forgets. */
module Dedup {
  import opened Store

  // ---- The machine that never forgets ----

  /** An unbounded table: no sweep. */
  function IdealApply(m: Machine, index: int, cmd: Command): (Machine, Outcome) {
    Perform(Tick(m, cmd), index, cmd)
  }

  function IdealAll(cmds: seq<Command>): (Machine, seq<Outcome>) {
    if cmds == [] then (FRESH, [])
    else
      var (m, os) := IdealAll(cmds[..|cmds| - 1]);
      var (m', o) := IdealApply(m, |cmds|, cmds[|cmds| - 1]);
      (m', os + [o])
  }

  /** The two machines after the first k commands of a log. */
  function Bounded(ttl: int, cmds: seq<Command>, k: nat): Machine
    requires k <= |cmds|
  {
    ApplyAll(FRESH, ttl, 0, cmds[..k]).0
  }

  function Unbounded(cmds: seq<Command>, k: nat): Machine
    requires k <= |cmds|
  {
    IdealAll(cmds[..k]).0
  }

  lemma BoundedStep(ttl: int, cmds: seq<Command>, k: nat)
    requires k < |cmds|
    ensures var (m, o) := Apply(Bounded(ttl, cmds, k), ttl, k + 1, cmds[k]);
            ApplyAll(FRESH, ttl, 0, cmds[..k + 1]) == (m, ApplyAll(FRESH, ttl, 0, cmds[..k]).1 + [o])
  {
    hide Apply;
    assert cmds[..k + 1] == cmds[..k] + [cmds[k]];
    ApplyAllSplits(FRESH, ttl, 0, cmds[..k], [cmds[k]]);
    OneCommand(Bounded(ttl, cmds, k), ttl, k, cmds[k]);
  }

  lemma UnboundedStep(cmds: seq<Command>, k: nat)
    requires k < |cmds|
    ensures var (m, o) := IdealApply(Unbounded(cmds, k), k + 1, cmds[k]);
            IdealAll(cmds[..k + 1]) == (m, IdealAll(cmds[..k]).1 + [o])
  {
    assert cmds[..k + 1][..k] == cmds[..k];
  }

  // ---- Clock and sweeps ----

  /** The replicated clock after k commands. */
  function Clock(cmds: seq<Command>, k: nat): int
    requires k <= |cmds|
  {
    if k == 0 then 0
    else if cmds[k - 1].timestamp > Clock(cmds, k - 1) then cmds[k - 1].timestamp
    else Clock(cmds, k - 1)
  }

  lemma {:induction false} ClockNeverRewinds(cmds: seq<Command>, j: nat, k: nat)
    requires j <= k <= |cmds|
    ensures Clock(cmds, j) <= Clock(cmds, k)
    decreases k
  {
    if j < k {
      ClockNeverRewinds(cmds, j, k - 1);
    }
  }

  lemma NextCount(k: nat)
    ensures (k + 1) % SWEEP_INTERVAL
            == if k % SWEEP_INTERVAL + 1 < SWEEP_INTERVAL then k % SWEEP_INTERVAL + 1 else 0
  {
  }

  /** Both machines keep the clock, and the bounded one counts commands toward its next sweep. */
  lemma {:induction false} ClocksAgree(ttl: int, cmds: seq<Command>, k: nat)
    requires k <= |cmds|
    ensures Bounded(ttl, cmds, k).now == Unbounded(cmds, k).now == Clock(cmds, k)
    ensures Bounded(ttl, cmds, k).sinceSweep == k % SWEEP_INTERVAL
    decreases k
  {
    if k > 0 {
      ClocksAgree(ttl, cmds, k - 1);
      BoundedStep(ttl, cmds, k - 1);
      UnboundedStep(cmds, k - 1);
      NextCount(k - 1);
      hide Bounded, Unbounded, ApplyAll, IdealAll;
    }
  }

  /** Some sweep after command p, up to command k, had its cutoff above the clock at p. */
  ghost predicate SweptSince(ttl: int, cmds: seq<Command>, p: nat, k: nat)
    requires p <= k <= |cmds|
  {
    exists q :: p < q <= k && q % SWEEP_INTERVAL == 0 && Clock(cmds, q) - ttl > Clock(cmds, p)
  }

  lemma SweptStep(ttl: int, cmds: seq<Command>, p: nat, k: nat)
    requires p <= k < |cmds|
    ensures SweptSince(ttl, cmds, p, k + 1)
            <==> SweptSince(ttl, cmds, p, k)
                 || ((k + 1) % SWEEP_INTERVAL == 0 && Clock(cmds, k + 1) - ttl > Clock(cmds, p))
  {
    if SweptSince(ttl, cmds, p, k) {
      var q :| p < q <= k && q % SWEEP_INTERVAL == 0 && Clock(cmds, q) - ttl > Clock(cmds, p);
      assert q <= k + 1;
    }
  }

  // ---- Sessions ----

  /** The command makes the machine record an outcome for this client. */
  predicate Records(m: Machine, cmd: Command, id: string) {
    id != "" && cmd.clientID == id && !IsDuplicate(m.sessions, cmd)
  }

  /** The last of the first k commands that was executed for this client; zero if none was. */
  function LastUse(cmds: seq<Command>, k: nat, id: string): (p: nat)
    requires k <= |cmds|
    ensures p <= k
  {
    if k == 0 then 0
    else if Records(Unbounded(cmds, k - 1), cmds[k - 1], id) then k
    else LastUse(cmds, k - 1, id)
  }

  lemma UnboundedIs(cmds: seq<Command>, k: nat)
    requires k < |cmds|
    ensures Unbounded(cmds, k + 1) == IdealApply(Unbounded(cmds, k), k + 1, cmds[k]).0
  {
    UnboundedStep(cmds, k);
  }

  lemma OneRecord(m: Machine, index: int, cmd: Command, id: string)
    ensures var m' := IdealApply(m, index, cmd).0;
            && (id in m'.sessions <==> id in m.sessions || Records(m, cmd, id))
            && (id in m'.sessions ==>
                  m'.sessions[id].lastUsed == if Records(m, cmd, id) then Tick(m, cmd).now else m.sessions[id].lastUsed)
  {
  }

  lemma {:induction false} SessionsRecordUse(cmds: seq<Command>, k: nat, id: string)
    requires k <= |cmds|
    ensures var u := Unbounded(cmds, k);
            && (id in u.sessions <==> LastUse(cmds, k, id) > 0)
            && (id in u.sessions ==> u.sessions[id].lastUsed == Clock(cmds, LastUse(cmds, k, id)))
    decreases k
  {
    if k > 0 {
      hide Unbounded, IdealAll, ApplyAll, Bounded;
      SessionsRecordUse(cmds, k - 1, id);
      ClocksAgree(0, cmds, k - 1);
      UnboundedIs(cmds, k - 1);
      OneRecord(Unbounded(cmds, k - 1), k, cmds[k - 1], id);
    } else {
      assert cmds[..0] == [];
    }
  }

  // ---- Which retransmissions are recognised ----

  /** One command: a session survives into the duplicate check exactly when this command does not
      sweep, or the sweep's cutoff is not past it. */
  lemma RecognisedExactlyWhen(m: Machine, ttl: int, cmd: Command)
    requires IsDuplicate(m.sessions, cmd)
    ensures IsDuplicate(Expire(Tick(m, cmd), ttl).sessions, cmd)
            <==> m.sinceSweep + 1 < SWEEP_INTERVAL || Tick(m, cmd).now - ttl <= m.sessions[cmd.clientID].lastUsed
  {
  }

  /** Command k is a retransmission: the machine that never forgets has its outcome. */
  predicate Retransmitted(cmds: seq<Command>, k: nat)
    requires k < |cmds|
  {
    IsDuplicate(Unbounded(cmds, k).sessions, cmds[k])
  }

  /** The bounded machine takes command k for what it is. */
  predicate Recognised(ttl: int, cmds: seq<Command>, k: nat)
    requires k < |cmds|
  {
    IsDuplicate(Expire(Tick(Bounded(ttl, cmds, k), cmds[k]), ttl).sessions, cmds[k]) == Retransmitted(cmds, k)
  }

  /** If it is a retransmission, no sweep since its session's last use had a cutoff above that use. */
  ghost predicate Timely(ttl: int, cmds: seq<Command>, k: nat)
    requires k < |cmds|
  {
    Retransmitted(cmds, k) ==> !SweptSince(ttl, cmds, LastUse(cmds, k, cmds[k].clientID), k + 1)
  }

  /** The bounded table is exactly the unbounded one less the sessions swept since their last use. */
  ghost predicate Mirrors(ttl: int, cmds: seq<Command>, k: nat)
    requires k <= |cmds|
  {
    var b, u := Bounded(ttl, cmds, k), Unbounded(cmds, k);
    && b.data == u.data
    && SameWhereKept(b.sessions, u.sessions)
    && (forall id :: id in u.sessions ==> (id in b.sessions <==> !SweptSince(ttl, cmds, LastUse(cmds, k, id), k)))
  }

  ghost predicate SameWhereKept(kept: map<string, Session>, all: map<string, Session>) {
    forall id :: id in kept ==> id in all && kept[id] == all[id]
  }

  /** After the clock has moved and the sweep has run for command k. */
  lemma SweepMirrors(ttl: int, cmds: seq<Command>, k: nat)
    requires k < |cmds| && Mirrors(ttl, cmds, k)
    ensures var e, u := Expire(Tick(Bounded(ttl, cmds, k), cmds[k]), ttl), Unbounded(cmds, k);
            && SameWhereKept(e.sessions, u.sessions)
            && (forall id :: id in u.sessions
                             ==> (id in e.sessions <==> !SweptSince(ttl, cmds, LastUse(cmds, k, id), k + 1)))
  {
    var b, u := Bounded(ttl, cmds, k), Unbounded(cmds, k);
    var e := Expire(Tick(b, cmds[k]), ttl);
    ClocksAgree(ttl, cmds, k);
    NextCount(k);
    hide Bounded, Unbounded, LastUse;
    forall id | id in u.sessions
      ensures id in e.sessions <==> !SweptSince(ttl, cmds, LastUse(cmds, k, id), k + 1)
    {
      SessionsRecordUse(cmds, k, id);
      SweptStep(ttl, cmds, LastUse(cmds, k, id), k);
      hide SweptSince;
    }
  }

  /** While the two machines have agreed so far, they agree on the next command exactly when it is timely. */
  lemma NextRecognisedExactlyWhen(ttl: int, cmds: seq<Command>, k: nat)
    requires k < |cmds| && Mirrors(ttl, cmds, k)
    ensures Recognised(ttl, cmds, k) <==> Timely(ttl, cmds, k)
  {
    SweepMirrors(ttl, cmds, k);
    hide Bounded, Unbounded, LastUse, SweptSince, Expire, Tick, Mirrors;
  }

  /** Two machines with the same data, clock and verdict on the command answer and record the same. */
  lemma PerformAlike(e: Machine, t: Machine, index: int, cmd: Command)
    requires e.data == t.data && e.now == t.now && SameWhereKept(e.sessions, t.sessions)
    requires IsDuplicate(e.sessions, cmd) == IsDuplicate(t.sessions, cmd)
    ensures var (e', o) := Perform(e, index, cmd);
            var (t', p) := Perform(t, index, cmd);
            && o == p && e'.data == t'.data && SameWhereKept(e'.sessions, t'.sessions)
            && (forall id :: id in e'.sessions <==> id in e.sessions || Records(t, cmd, id))
            && (forall id :: id in t'.sessions <==> id in t.sessions || Records(t, cmd, id))
  {
  }

  lemma KeptStep(ttl: int, cmds: seq<Command>, k: nat, id: string, kept: bool)
    requires k < |cmds|
    requires id in Unbounded(cmds, k).sessions ==> (kept <==> !SweptSince(ttl, cmds, LastUse(cmds, k, id), k + 1))
    requires id in Unbounded(cmds, k).sessions || Records(Unbounded(cmds, k), cmds[k], id)
    ensures kept || Records(Unbounded(cmds, k), cmds[k], id)
            <==> !SweptSince(ttl, cmds, LastUse(cmds, k + 1, id), k + 1)
  {
    hide Unbounded, Records;
    if Records(Unbounded(cmds, k), cmds[k], id) {
      NothingSweptYet(ttl, cmds, k + 1);
    }
  }

  /** A command both machines take for the same thing keeps them in step and answers the same. */
  lemma StepMirrors(ttl: int, cmds: seq<Command>, k: nat)
    requires k < |cmds| && Mirrors(ttl, cmds, k) && Recognised(ttl, cmds, k)
    ensures Apply(Bounded(ttl, cmds, k), ttl, k + 1, cmds[k]).1 == IdealApply(Unbounded(cmds, k), k + 1, cmds[k]).1
    ensures Mirrors(ttl, cmds, k + 1)
  {
    var b, u := Bounded(ttl, cmds, k), Unbounded(cmds, k);
    var e, t := Expire(Tick(b, cmds[k]), ttl), Tick(u, cmds[k]);
    SweepMirrors(ttl, cmds, k);
    ClocksAgree(ttl, cmds, k);
    assert e.now == t.now && e.data == t.data && t.sessions == u.sessions;
    PerformAlike(e, t, k + 1, cmds[k]);
    BoundedStep(ttl, cmds, k);
    UnboundedStep(cmds, k);
    var b', u' := Perform(e, k + 1, cmds[k]).0, Perform(t, k + 1, cmds[k]).0;
    assert b' == Bounded(ttl, cmds, k + 1) && u' == Unbounded(cmds, k + 1);
    hide Bounded, Unbounded, ApplyAll, IdealAll, SweptSince, Expire, Tick, Perform, LastUse;
    forall id | id in u'.sessions
      ensures id in b'.sessions <==> !SweptSince(ttl, cmds, LastUse(cmds, k + 1, id), k + 1)
    {
      assert Records(t, cmds[k], id) == Records(u, cmds[k], id);
      KeptStep(ttl, cmds, k, id, id in e.sessions);
      assert id in e.sessions ==> id in u.sessions;
    }
  }

  lemma NothingSweptYet(ttl: int, cmds: seq<Command>, k: nat)
    requires k <= |cmds|
    ensures !SweptSince(ttl, cmds, k, k)
  {
  }

  lemma {:induction false} MirrorsWhileRecognised(ttl: int, cmds: seq<Command>, n: nat)
    requires n <= |cmds| && forall k :: 0 <= k < n ==> Recognised(ttl, cmds, k)
    ensures Mirrors(ttl, cmds, n)
    ensures ApplyAll(FRESH, ttl, 0, cmds[..n]).1 == IdealAll(cmds[..n]).1
    decreases n
  {
    if n == 0 {
      assert cmds[..0] == [];
    } else {
      hide Recognised, Mirrors, Apply, IdealApply, ApplyAll, IdealAll;
      MirrorsWhileRecognised(ttl, cmds, n - 1);
      StepMirrors(ttl, cmds, n - 1);
      BoundedStep(ttl, cmds, n - 1);
      UnboundedStep(cmds, n - 1);
    }
  }

  /** Over every log: the bounded table takes every command for what it is exactly when every
      retransmission comes before a sweep with a cutoff above its session's last use. */
  lemma {:induction false} DedupExactlyWhen(ttl: int, cmds: seq<Command>, n: nat)
    requires n <= |cmds|
    ensures (forall k :: 0 <= k < n ==> Recognised(ttl, cmds, k)) <==> (forall k :: 0 <= k < n ==> Timely(ttl, cmds, k))
    decreases n
  {
    hide Recognised, Timely, Mirrors;
    if n > 0 {
      DedupExactlyWhen(ttl, cmds, n - 1);
      if forall k :: 0 <= k < n - 1 ==> Recognised(ttl, cmds, k) {
        MirrorsWhileRecognised(ttl, cmds, n - 1);
        NextRecognisedExactlyWhen(ttl, cmds, n - 1);
      }
    }
  }

  /** At every prefix of such a log, a session the unbounded machine holds is in the bounded table,
      and then the same, exactly when no sweep since its last use had a cutoff above that use. */
  lemma TableExactlyWhen(ttl: int, cmds: seq<Command>, n: nat, id: string)
    requires n <= |cmds| && (forall k :: 0 <= k < n ==> Timely(ttl, cmds, k)) && id in Unbounded(cmds, n).sessions
    ensures id in Bounded(ttl, cmds, n).sessions <==> !SweptSince(ttl, cmds, LastUse(cmds, n, id), n)
    ensures id in Bounded(ttl, cmds, n).sessions ==>
              Bounded(ttl, cmds, n).sessions[id] == Unbounded(cmds, n).sessions[id]
  {
    hide Recognised, Timely, Bounded, Unbounded, SweptSince, LastUse;
    DedupExactlyWhen(ttl, cmds, n);
    MirrorsWhileRecognised(ttl, cmds, n);
  }

  /** Data and every answer are those of the machine that never forgets, at every prefix. */
  lemma ExactlyOnce(ttl: int, cmds: seq<Command>, n: nat)
    requires n <= |cmds| && forall k :: 0 <= k < n ==> Timely(ttl, cmds, k)
    ensures ApplyAll(FRESH, ttl, 0, cmds[..n]).0.data == IdealAll(cmds[..n]).0.data
    ensures ApplyAll(FRESH, ttl, 0, cmds[..n]).1 == IdealAll(cmds[..n]).1
  {
    hide Recognised, Timely;
    DedupExactlyWhen(ttl, cmds, n);
    MirrorsWhileRecognised(ttl, cmds, n);
  }

  /** A client that retries within the time to live is always timely. */
  lemma PromptIsTimely(ttl: int, cmds: seq<Command>, k: nat)
    requires k < |cmds|
    requires Retransmitted(cmds, k)
             ==> Clock(cmds, k + 1) - ttl <= Unbounded(cmds, k).sessions[cmds[k].clientID].lastUsed
    ensures Timely(ttl, cmds, k)
  {
    hide Unbounded, SweptSince, LastUse;
    if Retransmitted(cmds, k) {
      var p := LastUse(cmds, k, cmds[k].clientID);
      SessionsRecordUse(cmds, k, cmds[k].clientID);
      WithinIsUnswept(ttl, cmds, p, k + 1);
    }
  }

  lemma WithinIsUnswept(ttl: int, cmds: seq<Command>, p: nat, k: nat)
    requires p <= k <= |cmds| && Clock(cmds, k) - ttl <= Clock(cmds, p)
    ensures !SweptSince(ttl, cmds, p, k)
  {
    forall q | p < q <= k
      ensures Clock(cmds, q) <= Clock(cmds, k)
    {
      ClockNeverRewinds(cmds, q, k);
    }
  }

  /** So is any retry before the first sweep, however late. */
  lemma EarlyIsTimely(ttl: int, cmds: seq<Command>, k: nat)
    requires k < |cmds| && k + 1 < SWEEP_INTERVAL
    ensures Timely(ttl, cmds, k)
  {
    assert forall q :: 0 < q <= k + 1 ==> q % SWEEP_INTERVAL == q;
  }

  /** What an untimely retry does: a delete repeated after its session was swept destroys the value
      someone else has written since, where the unbounded table would have replayed the answer. */
  lemma LateRetryDeletesAgain(ttl: int, m: Machine, index: int, retry: Command)
    requires ttl >= 0
    requires m == Machine(map["k" := "theirs"], map["me" := Session(1, Applied, 0)], 0, SWEEP_INTERVAL - 1)
    requires retry == Command(Delete, "k", "", "me", 1, ttl + 1)
    ensures Apply(m, ttl, index, retry).0.data == map[] && IdealApply(m, index, retry).0.data == m.data
    ensures IsDuplicate(m.sessions, retry) && !IsDuplicate(Expire(Tick(m, retry), ttl).sessions, retry)
  {
    var swept := Expire(Tick(m, retry), ttl);
    assert swept.sessions == map[];
    assert m.data - {"k"} == map[];
  }

  /** A log that gets there from a fresh machine: the delete, the other client's write, no-ops up to
      the sweep, and then the retry. */
  function LateLog(ttl: int): seq<Command> {
    [Command(Delete, "k", "", "me", 1, 0), Command(Set, "k", "theirs", "", 0, 0)]
    + seq(SWEEP_INTERVAL - 3, _ => Command(Noop, "", "", "", 0, 0))
    + [Command(Delete, "k", "", "me", 1, ttl + 1)]
  }

  /** Both machines between the write and the retry. */
  function Waiting(sinceSweep: int): Machine {
    Machine(map["k" := "theirs"], map["me" := Session(1, Applied, 0)], 0, sinceSweep)
  }

  lemma LateStart(ttl: int)
    ensures |LateLog(ttl)| == SWEEP_INTERVAL
    ensures Bounded(ttl, LateLog(ttl), 2) == Waiting(2) && Unbounded(LateLog(ttl), 2) == Waiting(0)
  {
    var cmds := LateLog(ttl);
    assert cmds[..0] == [];
    BoundedStep(ttl, cmds, 0);
    BoundedStep(ttl, cmds, 1);
    UnboundedStep(cmds, 0);
    UnboundedStep(cmds, 1);
  }

  lemma {:induction false} LateWait(ttl: int, k: nat)
    requires 2 <= k < SWEEP_INTERVAL
    ensures |LateLog(ttl)| == SWEEP_INTERVAL
    ensures Bounded(ttl, LateLog(ttl), k) == Waiting(k) && Unbounded(LateLog(ttl), k).sessions == Waiting(0).sessions
    ensures Unbounded(LateLog(ttl), k).data == Waiting(0).data
    decreases k
  {
    LateStart(ttl);
    if k > 2 {
      LateWait(ttl, k - 1);
      BoundedStep(ttl, LateLog(ttl), k - 1);
      UnboundedStep(LateLog(ttl), k - 1);
      hide Bounded, Unbounded, ApplyAll, IdealAll;
    }
  }

  /** From a fresh machine, with any time to live: the retry is not timely, the bounded machine ends
      without the other client's value and the unbounded one with it. */
  lemma LateRetryDestroysWrite(ttl: int)
    requires ttl >= 0
    ensures var cmds := LateLog(ttl);
            && |cmds| == SWEEP_INTERVAL && !Timely(ttl, cmds, SWEEP_INTERVAL - 1)
            && Bounded(ttl, cmds, SWEEP_INTERVAL).data == map[]
            && Unbounded(cmds, SWEEP_INTERVAL).data == map["k" := "theirs"]
  {
    var cmds, k := LateLog(ttl), SWEEP_INTERVAL - 1;
    LateWait(ttl, k);
    BoundedStep(ttl, cmds, k);
    UnboundedStep(cmds, k);
    hide Bounded, Unbounded, ApplyAll, IdealAll, Timely, Mirrors;
    LateRetryDeletesAgain(ttl, Waiting(k), k + 1, cmds[k]);
    LateMirrors(ttl, cmds, k);
    NextRecognisedExactlyWhen(ttl, cmds, k);
  }

  lemma LateMirrors(ttl: int, cmds: seq<Command>, k: nat)
    requires k <= |cmds| && k < SWEEP_INTERVAL
    ensures Mirrors(ttl, cmds, k)
  {
    hide Timely, Recognised, Mirrors;
    forall j | 0 <= j < k
      ensures Timely(ttl, cmds, j)
    {
      EarlyIsTimely(ttl, cmds, j);
    }
    DedupExactlyWhen(ttl, cmds, k);
    MirrorsWhileRecognised(ttl, cmds, k);
  }
}
