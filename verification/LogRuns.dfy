/** The log over whole lives: what the code does to cache, offset and next index, beside what each
    operation is meant to do to a plain sequence, and exactly when the one keeps standing for the other. */
module LogRuns {
  import opened Store
  import opened RaftLog

  datatype LogOp =
    | LeaderAppends(command: Command, term: int)
    | BatchArrives(prev: int, prevTerm: int, entries: seq<LogEntry>, writes: nat)
    | CompactsTo(index: int)
    | SnapshotArrives(prefix: seq<LogEntry>)
    | Reopens

  /** The complete log, how much of it a snapshot covers, and the index the next append will be given. */
  datatype Plain = Plain(full: seq<LogEntry>, base: int, next: int)

  /** What callers guarantee. */
  predicate Allowed(p: Plain, op: LogOp) {
    match op
    case LeaderAppends(_, _) => true
    case BatchArrives(prev, _, es, _) => prev >= 0 && Contiguous(es, prev)
    case CompactsTo(index) => p.base <= index <= |p.full|
    case SnapshotArrives(prefix) => WellIndexed(prefix) && prefix != []
    case Reopens => true
  }

  /** The consistency check on the plain sequence. */
  predicate Matches(full: seq<LogEntry>, prev: int, prevTerm: int) {
    prev == 0 || (prev <= |full| && TermOf(full, prev) == prevTerm)
  }

  /** The batch passes the check at or above the boundary. */
  predicate Taken(p: Plain, prev: int, prevTerm: int) {
    0 <= p.base <= prev <= |p.full| && Matches(p.full, prev, prevTerm)
  }

  predicate Contains(full: seq<LogEntry>, prefix: seq<LogEntry>) {
    |prefix| <= |full| && TermOf(full, |prefix|) == TermOf(prefix, |prefix|)
  }

  function Max(a: int, b: int): int {
    if a < b then b else a
  }

  /** What the operation is meant to do. */
  function Meant(p: Plain, op: LogOp): Plain {
    match op
    case LeaderAppends(cmd, term) => p.(full := p.full + [LogEntry(|p.full| + 1, term, cmd)], next := p.next + 1)
    case BatchArrives(prev, prevTerm, es, writes) =>
      if !Taken(p, prev, prevTerm) then p
      else
        var full := Splice(p.full, prev, es, writes);
        p.(full := full, next := if Agreeing(p.full, prev, es) == |es| || writes == 0 then p.next else |full| + 1)
    case CompactsTo(index) => p.(base := index)
    case SnapshotArrives(prefix) =>
      if |prefix| <= p.base then p
      else if Contains(p.full, prefix) then
        p.(base := |prefix|, next := if |prefix| < |p.full| then |p.full| + 1 else Max(p.next, |prefix| + 1))
      else Plain(prefix, |prefix|, Max(p.next, |prefix| + 1))
    case Reopens => p.(next := |p.full| + 1)
  }

  /** What the code does. */
  function Done(s: LogState, op: LogOp): LogState {
    match op
    case LeaderAppends(cmd, term) => s.AppendLeader(cmd, term)
    case BatchArrives(prev, prevTerm, es, writes) => AppendEntries(s, prev, prevTerm, es, writes).log
    case CompactsTo(index) => s.TruncateBefore(index, s.TermAt(index))
    case SnapshotArrives(prefix) => s.ResetToSnapshot(|prefix|, TermOf(prefix, |prefix|))
    case Reopens => Recovered(s.cache).RestoreOffset(s.lastIncludedIndex, s.lastIncludedTerm)
  }

  function MeantAll(ops: seq<LogOp>): Plain {
    if ops == [] then Plain([], 0, 1) else Meant(MeantAll(ops[..|ops| - 1]), ops[|ops| - 1])
  }

  function DoneAll(ops: seq<LogOp>): LogState {
    if ops == [] then Recovered([]) else Done(DoneAll(ops[..|ops| - 1]), ops[|ops| - 1])
  }

  ghost predicate Refines(s: LogState, p: Plain) {
    Represents(s, p.full) && s.lastIncludedIndex == p.base && s.nextIndex == p.next
  }

  /** A leader appends only where its log ends. */
  predicate Usable(p: Plain, op: LogOp) {
    op.LeaderAppends? ==> p.next == |p.full| + 1
  }

  /** The receiver, against the plain sequence: at or above the boundary it succeeds exactly when the
      check passes and the disk takes what is new. */
  lemma BatchRefines(s: LogState, full: seq<LogEntry>, prev: int, prevTerm: int, es: seq<LogEntry>, writes: nat)
    requires Represents(s, full) && prev >= 0 && Contiguous(es, prev)
    ensures var r := AppendEntries(s, prev, prevTerm, es, writes);
            var p' := Meant(Plain(full, s.lastIncludedIndex, s.nextIndex), BatchArrives(prev, prevTerm, es, writes));
            && Refines(r.log, p')
            && (s.lastIncludedIndex <= prev ==>
                  (r.ok <==> Matches(full, prev, prevTerm)
                             && (|es| == Agreeing(full, prev, es) || |es| - Agreeing(full, prev, es) < writes)))
  {
    LastAgrees(s, full);
    BatchKeepsBase(s, prev, prevTerm, es, writes);
    if prev < s.lastIncludedIndex {
      BelowBoundaryRefused(s, full, prev, es, writes);
    } else {
      AccessorsAgree(s, full, prev);
      if Matches(full, prev, prevTerm) {
        SpliceRefines(s, full, prev, es, writes);
      }
    }
  }

  lemma BatchKeepsBase(s: LogState, prev: int, prevTerm: int, es: seq<LogEntry>, writes: nat)
    ensures AppendEntries(s, prev, prevTerm, es, writes).log.lastIncludedIndex == s.lastIncludedIndex
  {
    SpliceKeepsBase(s, es, writes);
  }

  lemma SnapshotRefines(s: LogState, p: Plain, prefix: seq<LogEntry>)
    requires Refines(s, p) && Allowed(p, SnapshotArrives(prefix))
    ensures Refines(Done(s, SnapshotArrives(prefix)), Meant(p, SnapshotArrives(prefix)))
  {
    if |prefix| > p.base {
      ResetRefines(s, p.full, prefix);
      ResetNext(s, p.full, |prefix|, TermOf(prefix, |prefix|));
    }
  }

  /** One operation: the code does what is meant, exactly when a leader appends where its log ends. */
  lemma StepRefinesExactlyWhen(s: LogState, p: Plain, op: LogOp)
    requires Refines(s, p) && Allowed(p, op)
    ensures Refines(Done(s, op), Meant(p, op)) <==> Usable(p, op)
  {
    hide Represents, LogState.AppendLeader, AppendEntries, LogState.TruncateBefore, LogState.ResetToSnapshot;
    hide LogState.RestoreOffset, Recovered, Splice, Agreeing;
    match op
    case LeaderAppends(cmd, term) => AppendRefinesExactlyWhen(s, p, cmd, term);
    case BatchArrives(prev, prevTerm, es, writes) => BatchRefines(s, p.full, prev, prevTerm, es, writes);
    case CompactsTo(index) =>
      AccessorsAgree(s, p.full, index);
      CompactionRefines(s, p.full, index);
      CompactionKeepsNext(s, index, s.TermAt(index));
    case SnapshotArrives(prefix) => SnapshotRefines(s, p, prefix);
    case Reopens => ReopenRefines(s, p.full);
  }

  lemma AppendRefinesExactlyWhen(s: LogState, p: Plain, cmd: Command, term: int)
    requires Refines(s, p)
    ensures Refines(s.AppendLeader(cmd, term), Meant(p, LeaderAppends(cmd, term))) <==> p.next == |p.full| + 1
  {
    RepresentedEnd(s, p.full);
    LeaderAppendRefinesExactlyWhen(s, p.full, cmd, term);
    if s.Aligned() {
      LeaderAppendRefines(s, p.full, cmd, term);
    }
  }

  lemma CompactionKeepsNext(s: LogState, index: int, term: int)
    ensures s.TruncateBefore(index, term).nextIndex == s.nextIndex
  {
  }

  lemma ReopenRefines(s: LogState, full: seq<LogEntry>)
    requires Represents(s, full)
    ensures var r := Done(s, Reopens);
            Represents(r, full) && r.lastIncludedIndex == s.lastIncludedIndex && r.nextIndex == |full| + 1
  {
    RestartRefines(s, full);
    RepresentedEnd(Done(s, Reopens), full);
  }

  // ---- Whole lives ----

  ghost predicate Called(ops: seq<LogOp>) {
    forall k :: 0 <= k < |ops| ==> Allowed(MeantAll(ops[..k]), ops[k])
  }

  ghost predicate Stands(ops: seq<LogOp>, k: nat)
    requires k <= |ops|
  {
    Refines(DoneAll(ops[..k]), MeantAll(ops[..k]))
  }

  lemma OneMore(ops: seq<LogOp>, k: nat)
    requires k < |ops|
    ensures MeantAll(ops[..k + 1]) == Meant(MeantAll(ops[..k]), ops[k])
    ensures DoneAll(ops[..k + 1]) == Done(DoneAll(ops[..k]), ops[k])
  {
    assert ops[..k + 1][..k] == ops[..k];
  }

  lemma StandsAtFirst(ops: seq<LogOp>)
    ensures Stands(ops, 0)
  {
    assert ops[..0] == [];
  }

  lemma StandsNext(ops: seq<LogOp>, k: nat)
    requires k < |ops| && Called(ops) && Stands(ops, k)
    ensures Stands(ops, k + 1) <==> Appendable(ops, k)
  {
    OneMore(ops, k);
    hide Refines, Meant, MeantAll, Done, DoneAll, Usable, Allowed;
    StepRefinesExactlyWhen(DoneAll(ops[..k]), MeantAll(ops[..k]), ops[k]);
  }

  predicate Appendable(ops: seq<LogOp>, k: nat)
    requires k < |ops|
  {
    Usable(MeantAll(ops[..k]), ops[k])
  }

  /** Over every sequence of operations: cache, offset and next index stand for what the operations
      mean, at every moment, exactly when every append of a leader was made where its log ended. */
  lemma {:induction false} StandsExactlyWhen(ops: seq<LogOp>, n: nat)
    requires n <= |ops| && Called(ops)
    ensures (forall k :: 0 <= k <= n ==> Stands(ops, k)) <==> (forall k :: 0 <= k < n ==> Appendable(ops, k))
    decreases n
  {
    hide Stands, Appendable, Called;
    if n == 0 {
      StandsAtFirst(ops);
    } else {
      StandsExactlyWhen(ops, n - 1);
      if forall k :: 0 <= k <= n - 1 ==> Stands(ops, k) {
        StandsNext(ops, n - 1);
      }
    }
  }

  /** And then every accessor answers from the plain sequence, from the boundary up. */
  lemma LogRefinesSequence(ops: seq<LogOp>, i: int)
    requires Called(ops) && forall k :: 0 <= k < |ops| ==> Appendable(ops, k)
    ensures var s, full := DoneAll(ops), MeantAll(ops).full;
            && Represents(s, full)
            && s.LastIndex() == |full| && s.LastTerm() == TermOf(full, |full|)
            && (s.lastIncludedIndex <= i ==> s.TermAt(i) == TermOf(full, i))
            && (s.lastIncludedIndex < i ==>
                  && s.GetEntry(i) == (if i <= |full| then Some(full[i - 1]) else None)
                  && s.EntriesFrom(i) == if i <= |full| then full[i - 1..] else [])
  {
    var s, full := DoneAll(ops), MeantAll(ops).full;
    StandsExactlyWhen(ops, |ops|);
    assert Stands(ops, |ops|) && ops[..|ops|] == ops;
    LastAgrees(s, full);
    if s.lastIncludedIndex <= i {
      AccessorsAgree(s, full, i);
    }
    if s.lastIncludedIndex < i {
      EntriesAgree(s, full, i);
    }
  }

  /** The two operations that leave a leader unable to append: a batch that cuts the log and then
      finds the disk refusing, and a snapshot that replaces a longer log. */
  predicate Strands(p: Plain, op: LogOp) {
    match op
    case BatchArrives(prev, prevTerm, es, writes) =>
      && Taken(p, prev, prevTerm) && writes == 0
      && Agreeing(p.full, prev, es) < |es| && prev + Agreeing(p.full, prev, es) < |p.full|
    case SnapshotArrives(prefix) => p.base < |prefix| < |p.full| && !Contains(p.full, prefix)
    case _ => false
  }

  /** A usable next index is lost by these two and nothing else. */
  lemma StrandedExactlyWhen(p: Plain, op: LogOp)
    requires Allowed(p, op) && p.next == |p.full| + 1
    ensures Meant(p, op).next == |Meant(p, op).full| + 1 <==> !Strands(p, op)
  {
  }
}
