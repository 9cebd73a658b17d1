/** The log object itself: fields updated in place, loops as in internal/raft/log.go. Each
    operation is proved against its function on `LogState`. `wal` is the sequence of entries
    framed in the file; it equals the cache unless a write failed half-way. */
module DurableLog {
  import opened Store
  import opened Values = RaftLog
  import opened Consensus

  /** The splice of the remaining entries, with those already appended counted in. */
  function Counting(s: LogState, es: seq<LogEntry>, writes: nat, appended: nat): Spliced {
    var rest := SpliceEntries(s, es, writes);
    rest.(appended := rest.appended + appended)
  }

  lemma SpliceNothing(s: LogState, writes: nat)
    ensures SpliceEntries(s, [], writes) == Spliced(s, true, 0)
  {
  }

  /** The log without the entry held at this index and all that follow it. */
  function CutAt(s: LogState, e: LogEntry): LogState {
    if s.GetEntry(e.index).Some? then s.(cache := s.cache[..e.index - s.firstIndex]) else s
  }

  predicate Holds(s: LogState, e: LogEntry) {
    s.GetEntry(e.index).Some? && s.GetEntry(e.index).value.term == e.term
  }

  /** One entry of the splice. */
  lemma SpliceStep(s: LogState, es: seq<LogEntry>, writes: nat)
    requires es != []
    ensures var cut := CutAt(s, es[0]);
            SpliceEntries(s, es, writes)
            == if Holds(s, es[0]) then SpliceEntries(s, es[1..], writes)
               else if es[0].index != cut.firstIndex + |cut.cache| || writes == 0 then Spliced(cut, false, 0)
               else Counting(cut.(cache := cut.cache + [es[0]], nextIndex := es[0].index + 1), es[1..], writes - 1, 1)
  {
  }

  /** Whatever the disk takes, from here on the loop does to s what remains of the splice of s0. */
  ghost predicate OnTrack(s0: LogState, es: seq<LogEntry>, s: LogState, i: nat, appended: nat, writes: nat)
    requires i <= |es|
  {
    forall w: nat {:trigger SpliceEntries(s0, es, w)} :: appended <= w <= writes ==>
      SpliceEntries(s0, es, w) == Counting(s, es[i..], w - appended, appended)
  }

  lemma Skips(s0: LogState, es: seq<LogEntry>, s: LogState, i: nat, appended: nat, writes: nat)
    requires i < |es| && OnTrack(s0, es, s, i, appended, writes) && Holds(s, es[i])
    ensures OnTrack(s0, es, s, i + 1, appended, writes)
  {
    hide SpliceEntries, Holds;
    forall w: nat | appended <= w <= writes
      ensures SpliceEntries(s0, es, w) == Counting(s, es[i + 1..], w - appended, appended)
    {
      SpliceStep(s, es[i..], w - appended);
      assert es[i..][1..] == es[i + 1..];
    }
  }

  lemma Stops(s0: LogState, es: seq<LogEntry>, s: LogState, i: nat, appended: nat, writes: nat, w: nat)
    requires i < |es| && OnTrack(s0, es, s, i, appended, writes) && !Holds(s, es[i]) && appended <= w <= writes
    requires w == appended || es[i].index != CutAt(s, es[i]).firstIndex + |CutAt(s, es[i]).cache|
    ensures SpliceEntries(s0, es, w) == Spliced(CutAt(s, es[i]), false, appended)
  {
    hide SpliceEntries, Holds, CutAt;
    SpliceStep(s, es[i..], w - appended);
  }

  lemma Appends(s0: LogState, es: seq<LogEntry>, s: LogState, i: nat, appended: nat, writes: nat)
    requires i < |es| && OnTrack(s0, es, s, i, appended, writes) && !Holds(s, es[i])
    requires es[i].index == CutAt(s, es[i]).firstIndex + |CutAt(s, es[i]).cache|
    ensures var cut := CutAt(s, es[i]);
            var s' := cut.(cache := cut.cache + [es[i]], nextIndex := es[i].index + 1);
            OnTrack(s0, es, s', i + 1, appended + 1, writes)
  {
    hide SpliceEntries, Holds, CutAt;
    var cut := CutAt(s, es[i]);
    var s' := cut.(cache := cut.cache + [es[i]], nextIndex := es[i].index + 1);
    forall w: nat | appended + 1 <= w <= writes
      ensures SpliceEntries(s0, es, w) == Counting(s', es[i + 1..], w - appended - 1, appended + 1)
    {
      SpliceStep(s, es[i..], w - appended);
      assert es[i..][1..] == es[i + 1..];
    }
  }

  lemma AtStart(s: LogState, es: seq<LogEntry>, writes: nat)
    ensures OnTrack(s, es, s, 0, 0, writes)
  {
    hide SpliceEntries;
    assert es[0..] == es;
  }

  lemma AtEnd(s0: LogState, es: seq<LogEntry>, s: LogState, appended: nat, writes: nat)
    requires OnTrack(s0, es, s, |es|, appended, writes) && appended <= writes
    ensures SpliceEntries(s0, es, writes) == Spliced(s, true, appended)
  {
    hide SpliceEntries;
    assert es[|es|..] == [];
    SpliceNothing(s, writes - appended);
  }

  /** Memory and file together. */
  datatype Files = Files(log: LogState, wal: seq<LogEntry>)

  /** What a rewrite leaves in the file. */
  function Rewritten(cache: seq<LogEntry>, wal: seq<LogEntry>, io: Disk): seq<LogEntry> {
    if io == Failed(false) then wal else cache
  }

  /** The splice on both: a conflict is cut in memory, then in the file, and only then replaced. */
  function SpliceBoth(f: Files, es: seq<LogEntry>, writes: nat, rewrite: Disk): Files
    decreases |es|
  {
    if es == [] then f
    else if Holds(f.log, es[0]) then SpliceBoth(f, es[1..], writes, rewrite)
    else
      var cut, conflict := CutAt(f.log, es[0]), f.log.GetEntry(es[0].index).Some?;
      var wal := if conflict then Rewritten(cut.cache, f.wal, rewrite) else f.wal;
      if (conflict && rewrite.Failed?) || es[0].index != cut.firstIndex + |cut.cache| || writes == 0
      then Files(cut, wal)
      else
        SpliceBoth(Files(cut.(cache := cut.cache + [es[0]], nextIndex := es[0].index + 1), wal + [es[0]]), es[1..],
                   writes - 1, rewrite)
  }

  lemma BothStep(f: Files, es: seq<LogEntry>, i: nat, writes: nat, rewrite: Disk)
    requires i < |es|
    ensures var e := es[i];
            var cut, conflict := CutAt(f.log, e), f.log.GetEntry(e.index).Some?;
            var wal := if conflict then Rewritten(cut.cache, f.wal, rewrite) else f.wal;
            SpliceBoth(f, es[i..], writes, rewrite)
            == if Holds(f.log, e) then SpliceBoth(f, es[i + 1..], writes, rewrite)
               else if (conflict && rewrite.Failed?) || e.index != cut.firstIndex + |cut.cache| || writes == 0
               then Files(cut, wal)
               else SpliceBoth(Files(cut.(cache := cut.cache + [e], nextIndex := e.index + 1), wal + [e]),
                               es[i + 1..], writes - 1, rewrite)
  {
    hide Holds, CutAt, Rewritten;
    assert es[i..][1..] == es[i + 1..];
  }

  lemma BothEnd(f: Files, es: seq<LogEntry>, writes: nat, rewrite: Disk)
    ensures SpliceBoth(f, es[|es|..], writes, rewrite) == f
  {
  }

  function AppendBoth(f: Files, prev: int, prevTerm: int, es: seq<LogEntry>, writes: nat, rewrite: Disk): Files {
    if prev > 0 && (prev > f.log.LastIndex() || f.log.TermAt(prev) != prevTerm) then f
    else SpliceBoth(f, es, writes, rewrite)
  }

  class RaftLog {
    var cache: seq<LogEntry>
    var nextIndex: int
    var firstIndex: int
    var lastIncludedIndex: int
    var lastIncludedTerm: int
    var wal: seq<LogEntry>

    function State(): LogState
      reads this
    {
      LogState(cache, nextIndex, firstIndex, lastIncludedIndex, lastIncludedTerm)
    }

    function Both(): Files
      reads this
    {
      Files(State(), wal)
    }

    predicate Mirrored()
      reads this
    {
      wal == cache
    }

    /** Opening the file found by the previous process. */
    constructor (found: seq<LogEntry>)
      ensures State() == Recovered(found) && Mirrored()
    {
      nextIndex, firstIndex := 1, 1;
      lastIncludedIndex, lastIncludedTerm := 0, 0;
      cache, wal := [], found;
      new;
      var i := 0;
      while i < |found|
        invariant 0 <= i <= |found| && wal == found
        invariant State() == Recovered(found[..i])
      {
        if |cache| == 0 {
          firstIndex := found[i].index;
        }
        cache := cache + [found[i]];
        nextIndex := found[i].index + 1;
        i := i + 1;
        assert found[..i] == found[..i - 1] + [found[i - 1]];
      }
      assert found[..i] == found;
    }

    /** The write may fail, or succeed with the sync failing: then the file holds an entry the cache
        lacks, and its index is given out again. */
    method AppendLeader(cmd: Command, term: int, io: Disk) returns (entry: LogEntry, ok: bool)
      modifies this`cache, this`nextIndex, this`wal
      ensures ok == io.Durable? && entry == LogEntry(old(nextIndex), term, cmd)
      ensures State() == if ok then old(State()).AppendLeader(cmd, term) else old(State())
      ensures wal == if io == Failed(false) then old(wal) else old(wal) + [entry]
      ensures old(Mirrored()) ==> (Mirrored() <==> io != Failed(true))
    {
      entry := LogEntry(nextIndex, term, cmd);
      if io != Failed(false) {
        wal := wal + [entry];
      }
      if io.Failed? {
        return entry, false;
      }
      cache := cache + [entry];
      nextIndex := nextIndex + 1;
      ok := true;
    }

    method FindConflictStart(at: int, term: int) returns (ci: int)
      ensures ci == State().ConflictStart(at, term)
    {
      ci := at;
      while ci > firstIndex && State().EntryTerm(ci - 1) == term
        invariant State().ConflictStart(at, term) == State().ConflictStart(ci, term)
      {
        ci := ci - 1;
      }
    }

    /** rewriteWALLocked: a fresh file is renamed over the old one, or the old one stays. */
    method RewriteWal(io: Disk) returns (ok: bool)
      modifies this`wal
      ensures ok == io.Durable? && wal == Rewritten(cache, old(wal), io)
    {
      if io != Failed(false) {
        wal := cache;
      }
      ok := io.Durable?;
    }

    /** The loop of steps 3 and 4. If the file cannot be rewritten after a conflict, memory is left as
        by a disk that had taken no more than the entries appended so far. */
    method SpliceIn(entries: seq<LogEntry>, writes: nat, rewrite: Disk)
      returns (ok: bool, appended: nat, ghost taken: nat)
      modifies this`cache, this`nextIndex, this`wal
      ensures taken <= writes && (rewrite.Durable? || ok ==> taken == writes)
      ensures Spliced(State(), ok, appended) == SpliceEntries(old(State()), entries, taken)
      ensures Both() == SpliceBoth(old(Both()), entries, writes, rewrite)
      ensures old(Mirrored()) ==> Mirrored() || (!ok && rewrite == Failed(false) && cache < wal)
    {
      hide SpliceEntries, OnTrack, SpliceBoth;
      appended, taken := 0, writes;
      var i := 0;
      assert entries[0..] == entries;
      AtStart(State(), entries, writes);
      while i < |entries|
        invariant 0 <= i <= |entries| && appended <= writes && (old(Mirrored()) ==> Mirrored())
        invariant OnTrack(old(State()), entries, State(), i, appended, writes)
        invariant SpliceBoth(old(Both()), entries, writes, rewrite)
                  == SpliceBoth(Both(), entries[i..], writes - appended, rewrite)
      {
        var entry := entries[i];
        BothStep(Both(), entries, i, writes - appended, rewrite);
        ghost var before := State();
        var existing := State().GetEntry(entry.index);
        if existing.Some? && existing.value.term == entry.term {
          Skips(old(State()), entries, before, i, appended, writes);
        } else {
          if existing.Some? {
            cache := cache[..entry.index - firstIndex];
            var rewritten := RewriteWal(rewrite);
            if !rewritten {
              Stops(old(State()), entries, before, i, appended, writes, appended);
              return false, appended, appended;
            }
          }
          if entry.index != firstIndex + |cache| || writes == appended {
            Stops(old(State()), entries, before, i, appended, writes, writes);
            return false, appended, writes;
          }
          wal := wal + [entry];
          cache := cache + [entry];
          nextIndex := entry.index + 1;
          Appends(old(State()), entries, before, i, appended, writes);
          appended := appended + 1;
        }
        i := i + 1;
      }
      AtEnd(old(State()), entries, State(), appended, writes);
      BothEnd(Both(), entries, writes - appended, rewrite);
      ok := true;
    }

    method AppendEntriesToLog(prevLogIndex: int, prevLogTerm: int, entries: seq<LogEntry>, writes: nat, rewrite: Disk)
      returns (matchIndex: int, conflictTerm: int, conflictIndex: int, ok: bool, ghost taken: nat)
      modifies this`cache, this`nextIndex, this`wal
      ensures taken <= writes && (rewrite.Durable? ==> taken == writes)
      ensures AppendResult(State(), matchIndex, conflictTerm, conflictIndex, ok)
              == AppendEntries(old(State()), prevLogIndex, prevLogTerm, entries, taken)
      ensures Both() == AppendBoth(old(Both()), prevLogIndex, prevLogTerm, entries, writes, rewrite)
      ensures old(Mirrored()) ==> Mirrored() || (!ok && rewrite == Failed(false) && cache < wal)
    {
      taken := writes;
      if prevLogIndex > 0 {
        var last := State().LastIndex();
        if prevLogIndex > last {
          return 0, 0, last + 1, false, writes;
        }
        var prevTerm := State().TermAt(prevLogIndex);
        if prevTerm != prevLogTerm {
          var ci := FindConflictStart(prevLogIndex, prevTerm);
          return 0, prevTerm, ci, false, writes;
        }
      }
      var spliced, appended;
      spliced, appended, taken := SpliceIn(entries, writes, rewrite);
      if !spliced || (appended > 0 && appended == writes) {
        return 0, 0, 0, false, taken;
      }
      matchIndex := prevLogIndex;
      if |entries| > 0 {
        matchIndex := entries[|entries| - 1].index;
      }
      return matchIndex, 0, 0, true, taken;
    }

    method KeepAbove(boundary: int) returns (kept: seq<LogEntry>)
      ensures kept == Above(cache, boundary)
    {
      kept := [];
      var i := 0;
      while i < |cache|
        invariant 0 <= i <= |cache|
        invariant Above(cache, boundary) == kept + Above(cache[i..], boundary)
      {
        assert cache[i..][1..] == cache[i + 1..];
        if cache[i].index > boundary {
          kept := kept + [cache[i]];
        }
        i := i + 1;
      }
    }

    /** Memory is cut before the file, so a failed rewrite leaves only the file behind. */
    method TruncateBeforeIndex(snapshotIndex: int, snapshotTerm: int, io: Disk) returns (ok: bool)
      modifies this
      ensures State() == old(State()).TruncateBefore(snapshotIndex, snapshotTerm)
      ensures ok <==> io.Durable? || snapshotIndex < old(firstIndex)
      ensures wal == if snapshotIndex < old(firstIndex) then old(wal) else Rewritten(cache, old(wal), io)
    {
      if snapshotIndex < firstIndex {
        return true;
      }
      cache := KeepAbove(snapshotIndex);
      lastIncludedIndex, lastIncludedTerm := snapshotIndex, snapshotTerm;
      firstIndex := snapshotIndex + 1;
      ok := RewriteWal(io);
    }

    method ResetToSnapshot(index: int, term: int, io: Disk) returns (ok: bool)
      modifies this
      ensures State() == old(State()).ResetToSnapshot(index, term)
      ensures ok <==> io.Durable? || index <= old(lastIncludedIndex)
      ensures wal == if index <= old(lastIncludedIndex) then old(wal) else Rewritten(cache, old(wal), io)
    {
      hide Above, LogState.GetEntry;
      if index <= lastIncludedIndex {
        return true;
      }
      var existing := State().GetEntry(index);
      if existing.Some? && existing.value.term == term {
        cache := KeepAbove(index);
      } else {
        cache := [];
      }
      ghost var before := old(State());
      assert cache == if before.Retains(index, term) then Above(before.cache, index) else [];
      lastIncludedIndex, lastIncludedTerm := index, term;
      firstIndex := index + 1;
      if nextIndex < firstIndex {
        nextIndex := firstIndex;
      }
      if |cache| > 0 {
        nextIndex := cache[|cache| - 1].index + 1;
      }
      ok := RewriteWal(io);
    }

    method KeepRun(first: int) returns (kept: seq<LogEntry>)
      ensures kept == RunFrom(cache, first) && |kept| <= |cache| && (|kept| == |cache| ==> kept == cache)
    {
      kept := [];
      var expected := first;
      var i := 0;
      while i < |cache|
        invariant 0 <= i <= |cache| && expected == first + |kept|
        invariant |kept| <= i && (|kept| == i ==> kept == cache[..i])
        invariant RunFrom(cache, first) == kept + RunFrom(cache[i..], expected)
      {
        assert cache[i..][1..] == cache[i + 1..];
        if cache[i].index == expected {
          kept := kept + [cache[i]];
          expected := expected + 1;
        }
        i := i + 1;
      }
    }

    method RestoreOffset(index: int, term: int, io: Disk) returns (ok: bool)
      modifies this
      ensures State() == old(State()).RestoreOffset(index, term)
      ensures ok <==> io.Durable? || cache == old(cache)
      ensures wal == if cache == old(cache) then old(wal) else Rewritten(cache, old(wal), io)
    {
      lastIncludedIndex, lastIncludedTerm := index, term;
      firstIndex := index + 1;
      if |cache| == 0 {
        nextIndex := index + 1;
        return true;
      }
      var kept := KeepRun(index + 1);
      hide RunFrom;
      var dropped := |cache| - |kept|;
      cache := kept;
      nextIndex := index + 1 + |kept|;
      if dropped == 0 {
        return true;
      }
      ok := RewriteWal(io);
    }
  }
}
