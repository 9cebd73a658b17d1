/** Memory and file over whole lives, with every write allowed to fail (internal/raft/log.go): what a
    restart will find, tracked beside the log in memory, and so exactly when it gives that log back. */
module FileRuns {
  import opened Store
  import opened RaftLog
  import opened Consensus
  import opened LogRuns
  import opened FailedWrites
  import opened DurableLog

  datatype FileOp =
    | Append(command: Command, term: int, io: Disk)
    | Batch(prev: int, prevTerm: int, entries: seq<LogEntry>, writes: nat, rewrite: Disk)
    | CompactTo(index: int, cut: Disk)
    | Receive(prefix: seq<LogEntry>, cut: Disk)
    | Reopen

  /** The log in memory, the log a restart would come back with, and the number of frames in the file. */
  datatype Kept = Kept(plain: Plain, shadow: seq<LogEntry>, frames: int)

  /** What callers guarantee. A file without a snapshot opens only if no number occurs in it twice. */
  predicate Permitted(k: Kept, op: FileOp) {
    match op
    case Append(cmd, term, _) => Usable(k.plain, LeaderAppends(cmd, term))
    case Batch(prev, prevTerm, es, writes, _) => Allowed(k.plain, BatchArrives(prev, prevTerm, es, writes))
    case CompactTo(index, _) => Allowed(k.plain, CompactsTo(index))
    case Receive(prefix, _) => Allowed(k.plain, SnapshotArrives(prefix))
    case Reopen => k.plain.base > 0 || k.frames == |k.shadow|
  }

  /** What the code does, method by method of `DurableLog.RaftLog`. */
  function Run(f: Files, op: FileOp): Files {
    match op
    case Append(cmd, term, io) =>
      Files(if io.Durable? then f.log.AppendLeader(cmd, term) else f.log,
            if io == Failed(false) then f.wal else f.wal + [LogEntry(f.log.nextIndex, term, cmd)])
    case Batch(prev, prevTerm, es, writes, rewrite) => AppendBoth(f, prev, prevTerm, es, writes, rewrite)
    case CompactTo(index, cut) =>
      var log := f.log.TruncateBefore(index, f.log.TermAt(index));
      Files(log, if index < f.log.firstIndex then f.wal else Rewritten(log.cache, f.wal, cut))
    case Receive(prefix, cut) =>
      var log := f.log.ResetToSnapshot(|prefix|, TermOf(prefix, |prefix|));
      Files(log, if |prefix| <= f.log.lastIncludedIndex then f.wal else Rewritten(log.cache, f.wal, cut))
    case Reopen =>
      if f.log.lastIncludedIndex == 0 then Files(Recovered(f.wal), f.wal)
      else
        var log := Reopened(f.wal, f.log.lastIncludedIndex, f.log.lastIncludedTerm);
        Files(log, log.cache)
  }

  /** Entries written behind a longer shadow are not seen: of each number a restart takes the first. */
  function Extend(shadow: seq<LogEntry>, full: seq<LogEntry>): seq<LogEntry> {
    if |full| > |shadow| then shadow + full[|shadow|..] else shadow
  }

  /** A snapshot covers whatever the file holds up to its index. */
  function Cover(shadow: seq<LogEntry>, full: seq<LogEntry>, base: int): seq<LogEntry>
    requires 0 <= base <= |full|
  {
    full[..base] + if base <= |shadow| then shadow[base..] else []
  }

  /** The file after an attempt to rewrite it to memory's log from `base` on. */
  function Recut(k: Kept, plain: Plain, io: Disk): Kept {
    if !(0 <= plain.base <= |plain.full|) then k
    else if io == Failed(false) then Kept(plain, Cover(k.shadow, plain.full, plain.base), k.frames)
    else Kept(plain, plain.full, |plain.full| - plain.base)
  }

  /** What that amounts to. */
  function Keep(k: Kept, op: FileOp): Kept {
    var p := k.plain;
    match op
    case Append(cmd, term, io) =>
      var longer := p.full + [LogEntry(|p.full| + 1, term, cmd)];
      if io == Failed(false) then k
      else Kept(if io.Durable? then Meant(p, LeaderAppends(cmd, term)) else p, Extend(k.shadow, longer), k.frames + 1)
    case Batch(prev, prevTerm, es, writes, rewrite) =>
      if !Taken(p, prev, prevTerm) || Agreeing(p.full, prev, es) == |es| then k
      else
        var at := prev + Agreeing(p.full, prev, es);
        var after := Meant(p, BatchArrives(prev, prevTerm, es, writes));
        if at == |p.full| then Kept(after, Extend(k.shadow, after.full), k.frames + |after.full| - at)
        else if rewrite.Failed? then Recut(k, p.(full := p.full[..at]), rewrite)
        else Kept(after, after.full, |after.full| - p.base)
    case CompactTo(index, cut) => if index <= p.base then k else Recut(k, Meant(p, CompactsTo(index)), cut)
    case Receive(prefix, cut) => if |prefix| <= p.base then k else Recut(k, Meant(p, SnapshotArrives(prefix)), cut)
    case Reopen => Kept(Plain(k.shadow, p.base, |k.shadow| + 1), k.shadow, |k.shadow| - p.base)
  }

  /** From any boundary on, the file reads as the shadow. */
  ghost predicate ReadsAs(file: seq<LogEntry>, base: nat, shadow: seq<LogEntry>) {
    forall x :: x > base ==> RunFrom(file, x) == if x <= |shadow| then shadow[x - 1..] else []
  }

  ghost predicate Tracks(f: Files, k: Kept) {
    && Refines(f.log, k.plain) && 0 <= k.plain.base <= |k.plain.full|
    && WellIndexed(k.shadow) && |k.plain.full| <= |k.shadow| && |f.wal| == k.frames
    && k.shadow[..k.plain.base] == k.plain.full[..k.plain.base]
    && ReadsAs(f.wal, k.plain.base, k.shadow)
  }

  // ---- How files read ----

  lemma RewrittenReads(full: seq<LogEntry>, base: nat)
    requires WellIndexed(full) && base <= |full|
    ensures ReadsAs(full[base..], base, full)
  {
    forall x | x > base
      ensures RunFrom(full[base..], x) == if x <= |full| then full[x - 1..] else []
    {
      RunIsSuffix(full, base, x - 1);
    }
  }

  /** New frames go on from anywhere up to the shadow's end. */
  lemma WrittenReads(file: seq<LogEntry>, base: nat, shadow: seq<LogEntry>, full: seq<LogEntry>, at: nat)
    requires ReadsAs(file, base, shadow) && WellIndexed(full)
    requires base <= at <= |shadow| && at <= |full|
    ensures ReadsAs(file + full[at..], base, Extend(shadow, full))
  {
    var longer := Extend(shadow, full);
    forall x | x > base
      ensures RunFrom(file + full[at..], x) == if x <= |longer| then longer[x - 1..] else []
    {
      RunInTwo(file, full[at..], x);
      WrittenRun(shadow, full, at, x);
    }
  }

  lemma WrittenRun(shadow: seq<LogEntry>, full: seq<LogEntry>, at: nat, x: int)
    requires WellIndexed(full) && x > 0 && at <= |shadow| && at <= |full|
    ensures var seen := if x <= |shadow| then shadow[x - 1..] else [];
            seen + RunFrom(full[at..], x + |seen|)
            == if x <= |Extend(shadow, full)| then Extend(shadow, full)[x - 1..] else []
  {
    hide RunFrom, WellIndexed;
    var longer := Extend(shadow, full);
    if x <= |shadow| {
      RunIsSuffix(full, at, |shadow|);
      assert longer[x - 1..] == shadow[x - 1..] + longer[|shadow|..];
    } else {
      RunIsSuffix(full, at, x - 1);
      assert x <= |full| ==> longer[x - 1..] == full[x - 1..];
    }
  }

  lemma CoveredReads(file: seq<LogEntry>, base: nat, shadow: seq<LogEntry>, full: seq<LogEntry>, b: nat)
    requires ReadsAs(file, base, shadow) && base <= b <= |full|
    ensures ReadsAs(file, b, Cover(shadow, full, b))
  {
    var covered := Cover(shadow, full, b);
    forall x | x > b
      ensures RunFrom(file, x) == if x <= |covered| then covered[x - 1..] else []
    {
      if x <= |shadow| {
        assert covered[x - 1..] == shadow[x - 1..];
      }
    }
  }

  // ---- Each operation ----

  lemma AppendTracks(f: Files, k: Kept, cmd: Command, term: int, io: Disk)
    requires Tracks(f, k) && Permitted(k, Append(cmd, term, io))
    ensures Tracks(Run(f, Append(cmd, term, io)), Keep(k, Append(cmd, term, io)))
  {
    hide RunFrom, ReadsAs, Represents, LogState.AppendLeader;
    var p := k.plain;
    var e := LogEntry(|p.full| + 1, term, cmd);
    var longer := p.full + [e];
    if io != Failed(false) {
      RepresentedEnd(f.log, p.full);
      RepresentedNumbered(f.log, p.full);
      assert longer[|p.full|..] == [e];
      WrittenReads(f.wal, p.base, k.shadow, longer, |p.full|);
      ExtendKeeps(k.shadow, longer, p.base);
      AppendRefinesExactlyWhen(f.log, p, cmd, term);
    }
  }

  lemma RepresentedNumbered(s: LogState, full: seq<LogEntry>)
    requires Represents(s, full)
    ensures WellIndexed(full)
  {
  }

  lemma ExtendKeeps(shadow: seq<LogEntry>, full: seq<LogEntry>, base: nat)
    requires WellIndexed(shadow) && WellIndexed(full) && base <= |shadow|
    ensures var longer := Extend(shadow, full);
            WellIndexed(longer) && |full| <= |longer| && longer[..base] == shadow[..base]
  {
  }

  lemma CoverKeeps(shadow: seq<LogEntry>, full: seq<LogEntry>, base: nat)
    requires WellIndexed(shadow) && WellIndexed(full) && base <= |full|
    ensures var covered := Cover(shadow, full, base);
            && WellIndexed(covered) && covered[..base] == full[..base]
            && (|full| <= |shadow| || |full| == base ==> |full| <= |covered|)
  {
  }

  /** After a cut in memory, whatever became of the attempt to cut the file. */
  lemma RecutTracks(f: Files, k: Kept, log: LogState, p: Plain, io: Disk)
    requires Tracks(f, k) && Refines(log, p) && k.plain.base <= p.base
    requires |p.full| <= |k.shadow| || |p.full| == p.base
    ensures Tracks(Files(log, Rewritten(log.cache, f.wal, io)), Recut(k, p, io))
  {
    hide RunFrom, ReadsAs;
    if io == Failed(false) {
      CoveredReads(f.wal, k.plain.base, k.shadow, p.full, p.base);
      CoverKeeps(k.shadow, p.full, p.base);
    } else {
      RewrittenReads(p.full, p.base);
    }
  }

  lemma ReopenTracks(f: Files, k: Kept)
    requires Tracks(f, k) && Permitted(k, Reopen)
    ensures Tracks(Run(f, Reopen), Keep(k, Reopen))
  {
    hide RunFrom;
    var b := k.plain.base;
    assert RunFrom(f.wal, b + 1) == k.shadow[b..];
    assert b > 0 ==> k.shadow[..b][b - 1] == k.plain.full[..b][b - 1];
    RewrittenReads(k.shadow, b);
    RecoveredCache(f.wal);
    if b == 0 {
      WholeRun(f.wal, 1);
      assert f.wal == k.shadow == k.shadow[0..];
      RecoveredWhole(f.wal);
    } else {
      ReopensAs(f.wal, b, k.shadow);
    }
  }

  lemma RecoveredWhole(wal: seq<LogEntry>)
    requires WellIndexed(wal)
    ensures Refines(Recovered(wal), Plain(wal, 0, |wal| + 1))
  {
    assert wal[0..] == wal;
  }

  lemma {:induction false} WholeRun(file: seq<LogEntry>, x: int)
    ensures |RunFrom(file, x)| <= |file| && (|RunFrom(file, x)| == |file| ==> RunFrom(file, x) == file)
    decreases |file|
  {
    if file != [] {
      WholeRun(file[1..], if file[0].index == x then x + 1 else x);
    }
  }

  // ---- The receiver ----

  /** Past the end of the log the loop only appends, to both. */
  lemma {:induction false} AppendingBoth(f: Files, full: seq<LogEntry>, es: seq<LogEntry>, writes: nat, rewrite: Disk)
    requires Represents(f.log, full) && Contiguous(es, |full|)
    ensures var n := if writes < |es| then writes else |es|;
            SpliceBoth(f, es, writes, rewrite) == Files(SpliceEntries(f.log, es, writes).log, f.wal + es[..n])
    decreases |es|
  {
    if es == [] {
      assert f.wal + es[..0] == f.wal;
    } else {
      var e := es[0];
      RepresentsOneMore(f.log, full, e);
      SpliceStep(f.log, es, writes);
      assert es[0..] == es;
      BothStep(f, es, 0, writes, rewrite);
      hide SpliceEntries, SpliceBoth, Represents, LogState.GetEntry;
      if writes == 0 {
        assert f.wal + es[..0] == f.wal;
      } else {
        var grown := f.log.(cache := f.log.cache + [e], nextIndex := e.index + 1);
        AppendingBoth(Files(grown, f.wal + [e]), full + [e], es[1..], writes - 1, rewrite);
        var n := if writes < |es| then writes else |es|;
        assert f.wal + [e] + es[1..][..n - 1] == f.wal + es[..n];
      }
    }
  }

  /** What the receiver's loop does to both, for a batch with something new in it. */
  ghost predicate BothRight(f: Files, full: seq<LogEntry>, prev: nat, es: seq<LogEntry>, writes: nat, rewrite: Disk)
    requires 0 <= f.log.lastIncludedIndex <= prev <= |full|
  {
    var b, at, r := f.log.lastIncludedIndex, prev + Agreeing(full, prev, es), SpliceBoth(f, es, writes, rewrite);
    && (at - prev == |es| ==> r == f)
    && (at - prev < |es| && at < |full| && rewrite.Failed? ==>
          r == Files(f.log.(cache := full[b..at]), Rewritten(full[b..at], f.wal, rewrite)))
    && (at - prev < |es| && (at == |full| || rewrite.Durable?) ==>
          && r.log == SpliceEntries(f.log, es, writes).log
          && r.wal == (if at < |full| then full[b..at] else f.wal) + Splice(full, prev, es, writes)[at..])
  }

  /** A batch whose first entry is not already held. */
  lemma ReplacingBoth(f: Files, full: seq<LogEntry>, prev: nat, es: seq<LogEntry>, writes: nat, rewrite: Disk)
    requires Represents(f.log, full) && Contiguous(es, prev) && es != []
    requires 0 <= f.log.lastIncludedIndex <= prev <= |full|
    requires prev < |full| ==> full[prev].term != es[0].term
    ensures BothRight(f, full, prev, es, writes, rewrite)
  {
    hide SpliceEntries, SpliceBoth, Represents, Agreeing, Splice, CutAt, Holds, LogState.GetEntry;
    var b, cut, short := f.log.lastIncludedIndex, CutAt(f.log, es[0]), full[..prev];
    CutIs(f.log, full, prev, es[0]);
    NewShape(full, prev, es, writes);
    SpliceStep(f.log, es, writes);
    SpliceStep(cut, es, writes);
    assert es[0..] == es;
    BothStep(f, es, 0, writes, rewrite);
    var wal := if prev < |full| then full[b..prev] else f.wal;
    BothStep(Files(cut, wal), es, 0, writes, rewrite);
    AppendingBoth(Files(cut, wal), short, es, writes, rewrite);
  }

  /** The log without what is in the way of an entry not held. */
  lemma CutIs(s: LogState, full: seq<LogEntry>, prev: nat, e: LogEntry)
    requires Represents(s, full) && 0 <= s.lastIncludedIndex <= prev <= |full| && e.index == prev + 1
    requires prev < |full| ==> full[prev].term != e.term
    ensures var cut := CutAt(s, e);
            && Represents(cut, full[..prev]) && cut == s.(cache := full[s.lastIncludedIndex..prev])
            && !Holds(s, e) && (s.GetEntry(e.index).Some? <==> prev < |full|)
            && CutAt(cut, e) == cut && !Holds(cut, e) && cut.GetEntry(e.index).None?
  {
    var b, short := s.lastIncludedIndex, full[..prev];
    AccessorsAgree(s, full, prev + 1);
    assert short[b..] == full[b..][..prev - b] == full[b..prev];
    AccessorsAgree(CutAt(s, e), short, prev + 1);
  }

  lemma NewShape(full: seq<LogEntry>, prev: nat, es: seq<LogEntry>, writes: nat)
    requires es != [] && prev <= |full| && (prev < |full| ==> full[prev].term != es[0].term)
    ensures Agreeing(full, prev, es) == 0
    ensures |Splice(full, prev, es, writes)| >= prev
    ensures Splice(full, prev, es, writes)[prev..] == es[..if writes < |es| then writes else |es|]
  {
  }

  lemma {:induction false} BothRefines(f: Files, full: seq<LogEntry>, prev: nat, es: seq<LogEntry>, writes: nat,
                                       rewrite: Disk)
    requires Represents(f.log, full) && Contiguous(es, prev)
    requires 0 <= f.log.lastIncludedIndex <= prev <= |full|
    ensures BothRight(f, full, prev, es, writes, rewrite)
    decreases |es|
  {
    hide BothRight, SpliceBoth, SpliceEntries, Splice, Agreeing, Represents, LogState.GetEntry;
    if es == [] {
      NothingBoth(f, full, prev, writes, rewrite);
    } else {
      AccessorsAgree(f.log, full, prev + 1);
      if prev < |full| && full[prev].term == es[0].term {
        BothRefines(f, full, prev + 1, es[1..], writes, rewrite);
        HeldBoth(f, full, prev, es, writes, rewrite);
      } else {
        ReplacingBoth(f, full, prev, es, writes, rewrite);
      }
    }
  }

  lemma NothingBoth(f: Files, full: seq<LogEntry>, prev: nat, writes: nat, rewrite: Disk)
    requires 0 <= f.log.lastIncludedIndex <= prev <= |full|
    ensures BothRight(f, full, prev, [], writes, rewrite)
  {
  }

  lemma HeldBoth(f: Files, full: seq<LogEntry>, prev: nat, es: seq<LogEntry>, writes: nat, rewrite: Disk)
    requires 0 <= f.log.lastIncludedIndex <= prev < |full| && es != [] && full[prev].term == es[0].term
    requires f.log.GetEntry(es[0].index) == Some(full[prev])
    requires BothRight(f, full, prev + 1, es[1..], writes, rewrite)
    ensures BothRight(f, full, prev, es, writes, rewrite)
  {
    SpliceSkipsHeld(full, prev, es, writes);
    HeldStep(f, es, writes, rewrite);
    hide SpliceBoth, SpliceEntries, Splice, Agreeing, LogState.GetEntry;
  }

  lemma HeldStep(f: Files, es: seq<LogEntry>, writes: nat, rewrite: Disk)
    requires es != [] && Holds(f.log, es[0])
    ensures SpliceBoth(f, es, writes, rewrite) == SpliceBoth(f, es[1..], writes, rewrite)
    ensures SpliceEntries(f.log, es, writes) == SpliceEntries(f.log, es[1..], writes)
  {
  }

  lemma BelowBoundaryUnchanged(f: Files, full: seq<LogEntry>, prev: nat, es: seq<LogEntry>, writes: nat, rewrite: Disk)
    requires Represents(f.log, full) && Contiguous(es, prev) && prev < f.log.lastIncludedIndex
    ensures SpliceBoth(f, es, writes, rewrite) == f
  {
  }

  /** A batch that fails the check, or holds nothing new. */
  lemma IdleBatch(f: Files, k: Kept, op: FileOp)
    requires Tracks(f, k) && op.Batch? && Permitted(k, op)
    requires !Taken(k.plain, op.prev, op.prevTerm) || Agreeing(k.plain.full, op.prev, op.entries) == |op.entries|
    ensures Run(f, op) == f
  {
    hide SpliceBoth, Agreeing, ReadsAs, Represents;
    var full := k.plain.full;
    LastAgrees(f.log, full);
    if op.prev < k.plain.base {
      BelowBoundaryUnchanged(f, full, op.prev, op.entries, op.writes, op.rewrite);
    } else {
      AccessorsAgree(f.log, full, op.prev);
      if Taken(k.plain, op.prev, op.prevTerm) {
        BothRefines(f, full, op.prev, op.entries, op.writes, op.rewrite);
      }
    }
  }

  lemma TakenBatch(f: Files, k: Kept, op: FileOp)
    requires Tracks(f, k) && op.Batch? && Permitted(k, op) && Taken(k.plain, op.prev, op.prevTerm)
    ensures BothRight(f, k.plain.full, op.prev, op.entries, op.writes, op.rewrite)
    ensures Run(f, op) == SpliceBoth(f, op.entries, op.writes, op.rewrite)
    ensures Refines(SpliceEntries(f.log, op.entries, op.writes).log,
                    Meant(k.plain, BatchArrives(op.prev, op.prevTerm, op.entries, op.writes)))
  {
    hide SpliceBoth, SpliceEntries, Splice, Agreeing, ReadsAs, Represents, BothRight, Meant;
    var full := k.plain.full;
    LastAgrees(f.log, full);
    AccessorsAgree(f.log, full, op.prev);
    BothRefines(f, full, op.prev, op.entries, op.writes, op.rewrite);
    BatchRefines(f.log, full, op.prev, op.prevTerm, op.entries, op.writes);
    PassesOn(f.log, op.prev, op.prevTerm, op.entries, op.writes);
  }

  lemma PassesOn(s: LogState, prev: int, prevTerm: int, es: seq<LogEntry>, writes: nat)
    requires prev > 0 ==> prev <= s.LastIndex() && s.TermAt(prev) == prevTerm
    ensures AppendEntries(s, prev, prevTerm, es, writes).log == SpliceEntries(s, es, writes).log
  {
    hide SpliceEntries;
  }

  lemma SpliceShape(full: seq<LogEntry>, prev: nat, es: seq<LogEntry>, writes: nat)
    requires prev <= |full| && Agreeing(full, prev, es) < |es|
    ensures var at, after := prev + Agreeing(full, prev, es), Splice(full, prev, es, writes);
            at <= |full| && at <= |after| && after[..at] == full[..at]
  {
    hide Agreeing;
  }

  lemma NewBatchTracks(f: Files, k: Kept, op: FileOp)
    requires Tracks(f, k) && op.Batch? && Permitted(k, op) && Taken(k.plain, op.prev, op.prevTerm)
    requires Agreeing(k.plain.full, op.prev, op.entries) < |op.entries|
    ensures Tracks(Run(f, op), Keep(k, op))
  {
    hide SpliceBoth, SpliceEntries, Splice, Agreeing, ReadsAs, Represents, RunFrom, AppendBoth;
    var p, b := k.plain, k.plain.base;
    var at := op.prev + Agreeing(p.full, op.prev, op.entries);
    var after := Splice(p.full, op.prev, op.entries, op.writes);
    var log := SpliceEntries(f.log, op.entries, op.writes).log;
    TakenBatch(f, k, op);
    SpliceShape(p.full, op.prev, op.entries, op.writes);
    RepresentedNumbered(log, after);
    if at == |p.full| {
      assert after[..b] == after[..at][..b] == p.full[..b];
      WrittenReads(f.wal, b, k.shadow, after, at);
      ExtendKeeps(k.shadow, after, b);
    } else if op.rewrite.Failed? {
      CutTracks(f, k, at, op.rewrite);
    } else {
      assert after[..b] == after[..at][..b] == p.full[..b];
      assert p.full[b..at] + after[at..] == after[b..] by {
        assert p.full[b..at] == p.full[..at][b..] == after[..at][b..];
      }
      RewrittenReads(after, b);
    }
  }

  /** A conflict cut in memory with the rewrite failing one way or the other. */
  lemma CutTracks(f: Files, k: Kept, at: int, io: Disk)
    requires Tracks(f, k) && k.plain.base <= at <= |k.plain.full|
    ensures var p, cut := k.plain, k.plain.full[k.plain.base..at];
            Tracks(Files(f.log.(cache := cut), Rewritten(cut, f.wal, io)), Recut(k, p.(full := p.full[..at]), io))
  {
    hide ReadsAs, RunFrom;
    var p, b := k.plain, k.plain.base;
    var log := f.log.(cache := p.full[b..at]);
    assert p.full[..at][b..] == p.full[b..at];
    assert Refines(log, p.(full := p.full[..at]));
    RecutTracks(f, k, log, p.(full := p.full[..at]), io);
  }

  // ---- Whole lives ----

  lemma CompactTracks(f: Files, k: Kept, index: int, cut: Disk)
    requires Tracks(f, k) && Permitted(k, CompactTo(index, cut))
    ensures Tracks(Run(f, CompactTo(index, cut)), Keep(k, CompactTo(index, cut)))
  {
    var p := k.plain;
    AccessorsAgree(f.log, p.full, index);
    CompactionRefines(f.log, p.full, index);
    CompactionKeepsNext(f.log, index, f.log.TermAt(index));
    if index > p.base {
      var log := f.log.TruncateBefore(index, f.log.TermAt(index));
      assert index >= f.log.firstIndex;
      hide ReadsAs, RunFrom, Represents, LogState.TruncateBefore;
      RecutTracks(f, k, log, p.(base := index), cut);
    }
  }

  lemma ReceiveTracks(f: Files, k: Kept, prefix: seq<LogEntry>, cut: Disk)
    requires Tracks(f, k) && Permitted(k, Receive(prefix, cut))
    ensures Tracks(Run(f, Receive(prefix, cut)), Keep(k, Receive(prefix, cut)))
  {
    hide ReadsAs, RunFrom;
    SnapshotRefines(f.log, k.plain, prefix);
    if |prefix| > k.plain.base {
      hide Represents, LogState.ResetToSnapshot;
      RecutTracks(f, k, f.log.ResetToSnapshot(|prefix|, TermOf(prefix, |prefix|)),
                  Meant(k.plain, SnapshotArrives(prefix)), cut);
    }
  }

  lemma RunTracks(f: Files, k: Kept, op: FileOp)
    requires Tracks(f, k) && Permitted(k, op)
    ensures Tracks(Run(f, op), Keep(k, op))
  {
    hide Tracks, ReadsAs, RunFrom, Agreeing;
    match op
    case Append(cmd, term, io) => AppendTracks(f, k, cmd, term, io);
    case Batch(prev, prevTerm, es, _, _) =>
      if !Taken(k.plain, prev, prevTerm) || Agreeing(k.plain.full, prev, es) == |es| {
        IdleBatch(f, k, op);
      } else {
        NewBatchTracks(f, k, op);
      }
    case CompactTo(index, cut) => CompactTracks(f, k, index, cut);
    case Receive(prefix, cut) => ReceiveTracks(f, k, prefix, cut);
    case Reopen => ReopenTracks(f, k);
  }

  function RunAll(ops: seq<FileOp>): Files {
    if ops == [] then Files(Recovered([]), []) else Run(RunAll(ops[..|ops| - 1]), ops[|ops| - 1])
  }

  function KeepAll(ops: seq<FileOp>): Kept {
    if ops == [] then Kept(Plain([], 0, 1), [], 0) else Keep(KeepAll(ops[..|ops| - 1]), ops[|ops| - 1])
  }

  predicate PermittedAll(ops: seq<FileOp>) {
    ops != [] ==> PermittedAll(ops[..|ops| - 1]) && Permitted(KeepAll(ops[..|ops| - 1]), ops[|ops| - 1])
  }

  lemma EmptyTracks()
    ensures Tracks(Files(Recovered([]), []), Kept(Plain([], 0, 1), [], 0))
  {
  }

  lemma {:induction false} TracksAll(ops: seq<FileOp>)
    requires PermittedAll(ops)
    ensures Tracks(RunAll(ops), KeepAll(ops))
    decreases |ops|
  {
    hide Tracks, Run, Keep, Permitted;
    if ops == [] {
      EmptyTracks();
    } else {
      TracksAll(ops[..|ops| - 1]);
      RunTracks(RunAll(ops[..|ops| - 1]), KeepAll(ops[..|ops| - 1]), ops[|ops| - 1]);
    }
  }

  /** What a restart at this moment comes back with. */
  function Found(f: Files): LogState {
    Reopened(f.wal, f.log.lastIncludedIndex, f.log.lastIncludedTerm)
  }

  lemma FoundBehindSnapshot(f: Files, k: Kept)
    requires Tracks(f, k) && k.plain.base > 0
    ensures Represents(Found(f), k.shadow) && (Represents(Found(f), k.plain.full) <==> k.shadow == k.plain.full)
  {
    var p, b := k.plain, k.plain.base;
    assert RunFrom(f.wal, b + 1) == k.shadow[b..];
    assert k.shadow[..b][b - 1] == p.full[..b][b - 1];
    assert k.shadow == k.shadow[..b] + k.shadow[b..] && p.full == p.full[..b] + p.full[b..];
    hide RunFrom, Recovered, ReadsAs;
    ReopensAs(f.wal, b, k.shadow);
    ReopensAs(f.wal, b, p.full);
  }

  lemma FoundWithoutSnapshot(f: Files, k: Kept)
    requires Tracks(f, k) && k.plain.base == 0
    ensures (exists log :: Represents(Found(f), log)) <==> k.frames == |k.shadow|
    ensures k.frames == |k.shadow| ==> Represents(Found(f), k.shadow)
    ensures Represents(Found(f), k.plain.full) <==> k.frames == |k.shadow| && k.shadow == k.plain.full
  {
    var wal := f.wal;
    assert Found(f) == Recovered(wal);
    assert RunFrom(wal, 1) == k.shadow[0..] == k.shadow;
    WholeRun(wal, 1);
    OpensExactlyWhen(wal);
    RecoveredCache(wal);
    hide RunFrom, ReadsAs, Reopened;
    assert wal[0..] == wal && k.shadow[0..] == k.shadow && k.plain.full[0..] == k.plain.full;
    if WellIndexed(wal) {
      RunIsSuffix(wal, 0, 0);
      assert RunFrom(wal, 1) == wal;
    }
    if k.frames == |k.shadow| {
      assert wal == k.shadow;
      RecoveredWhole(wal);
    }
  }

  /** Over every sequence of appends, batches, compactions, installs and restarts, each write failing or
      not: a restart comes back with the shadow. So it gives memory's log back exactly when that is the
      shadow and, without a snapshot, no number occurs in the file twice. */
  lemma RestartGivesBackExactlyWhen(ops: seq<FileOp>)
    requires PermittedAll(ops)
    ensures var f, k := RunAll(ops), KeepAll(ops);
            && Refines(f.log, k.plain)
            && (k.plain.base > 0 || k.frames == |k.shadow| ==> Represents(Found(f), k.shadow))
            && (Represents(Found(f), k.plain.full)
                <==> k.shadow == k.plain.full && (k.plain.base > 0 || k.frames == |k.shadow|))
  {
    hide RunAll, KeepAll, PermittedAll, ReadsAs, RunFrom, Recovered, Reopened;
    var f, k := RunAll(ops), KeepAll(ops);
    TracksAll(ops);
    if k.plain.base > 0 {
      FoundBehindSnapshot(f, k);
    } else {
      FoundWithoutSnapshot(f, k);
    }
  }

  /** No entry stays in the file that memory gave up: a leader's frame is synced or never written, and
      every cut reaches the file. */
  predicate Faultless(op: FileOp) {
    match op
    case Append(_, _, io) => io != Failed(true)
    case Batch(_, _, _, _, rewrite) => rewrite != Failed(false)
    case CompactTo(_, cut) => true
    case Receive(_, cut) => cut != Failed(false)
    case Reopen => true
  }

  /** In a life without such a write the restart always gives memory's log back. */
  lemma {:induction false} FaultlessGivesBack(ops: seq<FileOp>)
    requires PermittedAll(ops) && forall i :: 0 <= i < |ops| ==> Faultless(ops[i])
    ensures Mirrored(KeepAll(ops)) && Represents(Found(RunAll(ops)), KeepAll(ops).plain.full)
    decreases |ops|
  {
    hide Tracks, Represents, Found;
    if ops != [] {
      FaultlessGivesBack(ops[..|ops| - 1]);
      TracksAll(ops[..|ops| - 1]);
      MirroredNext(RunAll(ops[..|ops| - 1]), KeepAll(ops[..|ops| - 1]), ops[|ops| - 1]);
    }
    RestartGivesBackExactlyWhen(ops);
  }

  predicate Mirrored(k: Kept) {
    k.shadow == k.plain.full && (k.plain.base > 0 || k.frames == |k.shadow|)
  }

  lemma MirroredNext(f: Files, k: Kept, op: FileOp)
    requires Tracks(f, k) && Mirrored(k) && Permitted(k, op) && Faultless(op)
    ensures Mirrored(Keep(k, op))
  {
    hide ReadsAs, RunFrom, Represents, Agreeing;
    if op.Batch? && Taken(k.plain, op.prev, op.prevTerm)
       && Agreeing(k.plain.full, op.prev, op.entries) < |op.entries| {
      SpliceShape(k.plain.full, op.prev, op.entries, op.writes);
    }
  }
}
