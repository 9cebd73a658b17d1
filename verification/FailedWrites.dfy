/** Log writes that fail half-way (internal/raft/log.go): a batch written but not synced, and a
    leader's entry that reached the file but not the cache. What a redelivery or a restart makes of them. */
module FailedWrites {
  import opened Store
  import opened RaftLog
  import opened LogRuns

  /** How much of the batch a splice cut short by the disk leaves in the log. */
  lemma CutShort(full: seq<LogEntry>, prev: nat, es: seq<LogEntry>, writes: nat)
    requires prev <= |full| && |es| - Agreeing(full, prev, es) >= writes && Agreeing(full, prev, es) < |es|
    ensures var after := Splice(full, prev, es, writes);
            && prev <= |after| && after[..prev] == full[..prev]
            && (Agreeing(after, prev, es) == |es| <==> |es| - Agreeing(full, prev, es) == writes)
  {
    var j := Agreeing(full, prev, es);
    var after := Splice(full, prev, es, writes);
    assert after == full[..prev + j] + es[j..j + writes];
    assert forall k :: 0 <= k < j + writes ==> after[prev + k].term == es[k].term;
  }

  /** A batch the disk refused, delivered again to a disk that takes no write at all: it is
      acknowledged exactly when every entry had been written and only the sync had failed. */
  lemma RedeliveryAfterFailedSync(s: LogState, full: seq<LogEntry>, prev: int, prevTerm: int, es: seq<LogEntry>,
                                  writes: nat)
    requires Represents(s, full) && s.lastIncludedIndex <= prev && Contiguous(es, prev) && Matches(full, prev, prevTerm)
    requires !AppendEntries(s, prev, prevTerm, es, writes).ok
    ensures var cached := AppendEntries(s, prev, prevTerm, es, writes).log;
            AppendEntries(cached, prev, prevTerm, es, 0).ok <==> |es| - Agreeing(full, prev, es) == writes
  {
    assert 0 <= s.lastIncludedIndex <= |full|;
    hide AppendEntries, Splice, Agreeing, Represents;
    BatchRefines(s, full, prev, prevTerm, es, writes);
    CutShort(full, prev, es, writes);
    var after := Splice(full, prev, es, writes);
    assert prev > 0 ==> after[..prev][prev - 1] == full[..prev][prev - 1];
    BatchRefines(AppendEntries(s, prev, prevTerm, es, writes).log, after, prev, prevTerm, es, 0);
  }

  /** Start-up: the file is reconciled with a snapshot only where there is one. */
  function Reopened(file: seq<LogEntry>, base: int, term: int): LogState {
    if base == 0 then Recovered(file) else Recovered(file).RestoreOffset(base, term)
  }

  /** Frames of appends whose sync failed: the cache lacks them, so their index was given out again. */
  predicate Leftover(frames: seq<LogEntry>, end: nat) {
    frames != [] && forall p :: 0 <= p < |frames| ==> frames[p].index == end + 1
  }

  lemma {:induction false} RunInTwo(a: seq<LogEntry>, b: seq<LogEntry>, expected: int)
    ensures RunFrom(a + b, expected) == RunFrom(a, expected) + RunFrom(b, expected + |RunFrom(a, expected)|)
    decreases |a|
  {
    if a == [] {
      assert a + b == b;
    } else {
      assert (a + b)[1..] == a[1..] + b;
      RunInTwo(a[1..], b, if a[0].index == expected then expected + 1 else expected);
    }
  }

  lemma {:induction false} NoneExpected(frames: seq<LogEntry>, expected: int)
    requires forall p :: 0 <= p < |frames| ==> frames[p].index != expected
    ensures RunFrom(frames, expected) == []
    decreases |frames|
  {
    if frames != [] {
      NoneExpected(frames[1..], expected);
    }
  }

  lemma LeftoverRun(frames: seq<LogEntry>, end: nat, expected: int)
    requires Leftover(frames, end)
    ensures RunFrom(frames, expected) == if expected == end + 1 then [frames[0]] else []
  {
    if expected == end + 1 {
      NoneExpected(frames[1..], expected + 1);
    } else {
      NoneExpected(frames, expected);
    }
  }

  lemma {:induction false} LaterRun(later: seq<LogEntry>, n: int, expected: int)
    requires Contiguous(later, n) && n < expected
    ensures RunFrom(later, expected) == if expected <= n + |later| then later[expected - 1 - n..] else []
    decreases |later|
  {
    if later != [] {
      assert later == [later[0]] + later[1..];
      LaterRun(later[1..], n + 1, if later[0].index == expected then expected + 1 else expected);
    }
  }

  /** What the restart keeps of such a file: of each number the first. */
  lemma LeftoverFileRun(full: seq<LogEntry>, from: nat, frames: seq<LogEntry>, later: seq<LogEntry>, base: nat)
    requires WellIndexed(full) && Contiguous(later, |full|) && Leftover(frames, |full|)
    requires from <= |full| && from <= base <= |full| + |later|
    ensures RunFrom(full[from..] + frames + later, base + 1)
            == if base <= |full| then full[base..] + [frames[0]] + (if later == [] then [] else later[1..])
               else later[base - |full|..]
  {
    hide RunFrom, WellIndexed, Contiguous, Leftover;
    RunIsSuffix(full, from, base);
    RunInTwo(full[from..] + frames, later, base + 1);
    RunInTwo(full[from..], frames, base + 1);
    if base <= |full| {
      LeftoverRun(frames, |full|, |full| + 1);
      LaterRun(later, |full|, |full| + 2);
    } else {
      LeftoverRun(frames, |full|, base + 1);
      LaterRun(later, |full|, base + 1);
    }
  }

  /** The cache holds `full + later`. Behind a snapshot the restart gives that back exactly when the
      snapshot covers the refused frames, or the first of them is the very entry appended in its place. */
  lemma RestartBehindSnapshotExactlyWhen(full: seq<LogEntry>, from: nat, frames: seq<LogEntry>, later: seq<LogEntry>,
                                         base: nat)
    requires WellIndexed(full) && Contiguous(later, |full|) && Leftover(frames, |full|)
    requires from <= |full| && from <= base <= |full| + |later| && base > 0
    ensures var r := Reopened(full[from..] + frames + later, base, TermOf(full + later, base));
            && (Represents(r, full + later) <==> base > |full| || (later != [] && frames[0] == later[0]))
            && (base <= |full| ==> Represents(r, full + [frames[0]] + if later == [] then [] else later[1..]))
  {
    var file, log := full[from..] + frames + later, full + later;
    var rest := if later == [] then [] else later[1..];
    LeftoverFileRun(full, from, frames, later, base);
    ReopensAs(file, base, log);
    if base > |full| {
      assert log[base..] == later[base - |full|..];
    } else {
      var kept := full + [frames[0]] + rest;
      assert WellIndexed(kept) && TermOf(kept, base) == TermOf(log, base);
      ReopensAs(file, base, kept);
      hide *;
      assert kept[base..] == full[base..] + [frames[0]] + rest;
      assert log[base..] == full[base..] + later;
      if later != [] {
        assert later == [later[0]] + rest;
        assert kept[base..][|full| - base] == frames[0] && log[base..][|full| - base] == later[0];
      }
    }
  }

  lemma RecoveredCache(file: seq<LogEntry>)
    ensures Recovered(file).cache == file
  {
  }

  /** Without a snapshot it never does, and the file opens as a log at all only if one frame was
      refused and nothing appended since. */
  lemma RestartWithoutSnapshotExactlyWhen(full: seq<LogEntry>, frames: seq<LogEntry>, later: seq<LogEntry>)
    requires WellIndexed(full) && Contiguous(later, |full|) && Leftover(frames, |full|)
    ensures var r := Reopened(full + frames + later, 0, 0);
            && !Represents(r, full + later)
            && ((exists log :: Represents(r, log)) <==> |frames| == 1 && later == [])
  {
    var file := full + frames + later;
    OpensExactlyWhen(file);
    RecoveredCache(file);
    assert |file| > |full + later|;
    if |frames| > 1 {
      assert file[|full| + 1] == frames[1];
    } else if later != [] {
      assert file[|full| + 1] == later[0];
    }
  }

  /** The failing input: an append refused, retried and acknowledged, then a restart behind the
      snapshot. The refused command is back under the acknowledged one's index and term. */
  lemma RefusedEntryComesBack(a: LogEntry, refused: LogEntry, acked: LogEntry)
    requires a.index == 1 && refused.index == 2 && acked.index == 2 && refused.term == acked.term == a.term
    requires refused.command != acked.command
    ensures var r := Reopened([refused, acked], 1, a.term);
            Represents(r, [a, refused]) && r.Aligned() && r.GetEntry(2) == Some(refused)
  {
    assert [a][1..] + [refused] + [acked] == [refused, acked];
    RestartBehindSnapshotExactlyWhen([a], 1, [refused], [acked], 1);
    assert [a] + [refused] + [acked][1..] == [a, refused];
    LeftoverFileRun([a], 1, [refused], [acked], 1);
    AccessorsAgree(Reopened([refused, acked], 1, a.term), [a, refused], 2);
  }

  // ---- A conflict cut in memory while the file stayed as it was ----

  /** The file holds `uncut`; memory was cut to its first c entries and `later` appended to both. */
  predicate LeftUncut(uncut: seq<LogEntry>, from: nat, c: nat, later: seq<LogEntry>, base: nat) {
    && WellIndexed(uncut) && c <= |uncut| && Contiguous(later, c)
    && from <= |uncut| && from <= base <= c + |later|
  }

  lemma UncutFileRun(uncut: seq<LogEntry>, from: nat, c: nat, later: seq<LogEntry>, base: nat)
    requires LeftUncut(uncut, from, c, later, base)
    ensures RunFrom(uncut[from..] + later, base + 1)
            == if base > |uncut| then later[base - c..]
               else uncut[base..] + if |uncut| - c <= |later| then later[|uncut| - c..] else []
  {
    hide RunFrom, WellIndexed, Contiguous;
    RunIsSuffix(uncut, from, base);
    RunInTwo(uncut[from..], later, base + 1);
    LaterRun(later, c, (if base > |uncut| then base else |uncut|) + 1);
  }

  lemma ReopensAs(file: seq<LogEntry>, base: nat, log: seq<LogEntry>)
    requires WellIndexed(log) && 0 < base <= |log|
    ensures Represents(Reopened(file, base, TermOf(log, base)), log) <==> RunFrom(file, base + 1) == log[base..]
  {
    RecoveredCache(file);
  }

  lemma SameTail(uncut: seq<LogEntry>, c: nat, later: seq<LogEntry>, base: nat)
    requires c <= |uncut| && base <= |uncut| && base <= c + |later|
    ensures var log := uncut[..c] + later;
            uncut[base..] + (if |uncut| - c <= |later| then later[|uncut| - c..] else []) == log[base..]
            <==> uncut[base..] <= log[base..]
  {
    var log := uncut[..c] + later;
    if |uncut| <= |log| {
      assert log[|uncut|..] == later[|uncut| - c..];
      assert log[base..] == log[base..|uncut|] + log[|uncut|..];
    }
  }

  /** Behind a snapshot the restart gives back what memory held exactly when the snapshot covers the
      stale entries, or what replaced them begins with the same. */
  lemma RestartUncutExactlyWhen(uncut: seq<LogEntry>, from: nat, c: nat, later: seq<LogEntry>, base: nat)
    requires LeftUncut(uncut, from, c, later, base) && base > 0
    ensures var log := uncut[..c] + later;
            var r := Reopened(uncut[from..] + later, base, TermOf(log, base));
            Represents(r, log) <==> base > |uncut| || uncut[base..] <= log[base..]
  {
    var file, log := uncut[from..] + later, uncut[..c] + later;
    assert WellIndexed(log);
    UncutFileRun(uncut, from, c, later, base);
    ReopensAs(file, base, log);
    hide *;
    if base > |uncut| {
      assert log[base..] == later[base - c..];
    } else {
      SameTail(uncut, c, later, base);
    }
  }

  /** Without one, exactly when nothing had been cut; and the file opens as a log at all only then,
      or if nothing was appended. */
  lemma RestartUncutWithoutSnapshotExactlyWhen(uncut: seq<LogEntry>, c: nat, later: seq<LogEntry>)
    requires WellIndexed(uncut) && c <= |uncut| && Contiguous(later, c)
    ensures var r := Reopened(uncut + later, 0, 0);
            && (Represents(r, uncut[..c] + later) <==> c == |uncut|)
            && ((exists log :: Represents(r, log)) <==> c == |uncut| || later == [])
  {
    var file := uncut + later;
    OpensExactlyWhen(file);
    RecoveredCache(file);
    assert file[0..] == file && (uncut[..c] + later)[0..] == uncut[..c] + later;
    if c < |uncut| {
      assert |file| > |uncut[..c] + later|;
      if later != [] {
        assert file[|uncut|] == later[0];
      }
    } else {
      assert uncut[..c] == uncut;
    }
  }

  /** The failing input: entry 2 of term 1 was replaced by an acknowledged one of term 2, with the file
      not rewritten in between. After a restart the replaced one is back. */
  lemma ReplacedEntryComesBack(a: LogEntry, stale: LogEntry, acked: LogEntry)
    requires a.index == 1 && stale.index == 2 && acked.index == 2 && stale.term == 1 && acked.term == 2
    ensures var r := Reopened([stale, acked], 1, a.term);
            !Represents(r, [a, acked]) && r.Aligned() && r.GetEntry(2) == Some(stale)
  {
    var uncut, log := [a, stale], [a, acked];
    assert uncut[1..] + [acked] == [stale, acked] && uncut[..1] + [acked] == log;
    RestartUncutExactlyWhen(uncut, 1, 1, [acked], 1);
    UncutFileRun(uncut, 1, 1, [acked], 1);
    RecoveredCache([stale, acked]);
    assert uncut[1..] == [stale] && log[1..] == [acked];
  }

  /** A file without a snapshot opens as a log exactly when its entries are numbered from one. */
  lemma OpensExactlyWhen(file: seq<LogEntry>)
    ensures (exists log :: Represents(Recovered(file), log)) <==> WellIndexed(file)
  {
    assert file[0..] == file;
    assert WellIndexed(file) ==> Represents(Recovered(file), file);
    forall log | Represents(Recovered(file), log)
      ensures log == file
    {
      assert log[0..] == log;
    }
  }
}
