/** The replicated log with its positional cache and snapshot offset (internal/raft/log.go).
    `LogState` is the value of the in-memory fields; the functions on it are what the
    class `RaftLog` is proved against, and `Represents` ties it to one plain sequence. */
module RaftLog {
  import opened Store

  /** The command is opaque here; only the state machine looks inside. */
  datatype LogEntry = LogEntry(index: int, term: int, command: Command)

  datatype LogState = LogState(cache: seq<LogEntry>, nextIndex: int, firstIndex: int,
                               lastIncludedIndex: int, lastIncludedTerm: int) {

    function GetEntry(index: int): Option<LogEntry> {
      var at := index - firstIndex;
      if at < 0 || at >= |cache| then None else Some(cache[at])
    }

    function LastIndex(): int {
      if cache == [] then lastIncludedIndex else cache[|cache| - 1].index
    }

    function LastTerm(): int {
      if cache == [] then lastIncludedTerm else cache[|cache| - 1].term
    }

    /** Zero for an index this log cannot resolve. */
    function TermAt(index: int): int {
      if index == lastIncludedIndex then lastIncludedTerm
      else match GetEntry(index)
        case None => 0
        case Some(e) => e.term
    }

    function EntriesFrom(start: int): seq<LogEntry> {
      var at := start - firstIndex;
      if at < 0 || at >= |cache| then [] else cache[at..]
    }

    /** The index AppendLeader would assign is the one just past the cache. */
    predicate Aligned() {
      nextIndex == firstIndex + |cache|
    }

    function AppendLeader(cmd: Command, term: int): LogState {
      this.(cache := cache + [LogEntry(nextIndex, term, cmd)], nextIndex := nextIndex + 1)
    }

    /** The first index held for the conflicting term, walking down from `at`. */
    function ConflictStart(at: int, term: int): (r: int)
      ensures r <= at
      ensures at > firstIndex ==> r >= firstIndex
      ensures forall i :: r <= i < at ==> EntryTerm(i) == term
      ensures r > firstIndex ==> EntryTerm(r - 1) != term
      decreases at - firstIndex
    {
      if at > firstIndex && EntryTerm(at - 1) == term then ConflictStart(at - 1, term) else at
    }

    function EntryTerm(index: int): int {
      match GetEntry(index)
      case None => 0
      case Some(e) => e.term
    }

    function TruncateBefore(snapshotIndex: int, snapshotTerm: int): LogState {
      if snapshotIndex < firstIndex then this
      else this.(cache := Above(cache, snapshotIndex), lastIncludedIndex := snapshotIndex,
                 lastIncludedTerm := snapshotTerm, firstIndex := snapshotIndex + 1)
    }

    /** The snapshot is a prefix of this log: what follows it is retained. */
    predicate Retains(index: int, term: int) {
      GetEntry(index).Some? && GetEntry(index).value.term == term
    }

    function ResetToSnapshot(index: int, term: int): LogState {
      if index <= lastIncludedIndex then this
      else
        var kept := if Retains(index, term) then Above(cache, index) else [];
        var next := if kept != [] then kept[|kept| - 1].index + 1
                    else if nextIndex < index + 1 then index + 1 else nextIndex;
        LogState(kept, next, index + 1, index, term)
    }

    function RestoreOffset(index: int, term: int): LogState {
      var kept := RunFrom(cache, index + 1);
      LogState(kept, index + 1 + |kept|, index + 1, index, term)
    }
  }

  /** Entries with an index above the boundary, in order. */
  function Above(es: seq<LogEntry>, boundary: int): seq<LogEntry> {
    if es == [] then []
    else (if es[0].index > boundary then [es[0]] else []) + Above(es[1..], boundary)
  }

  /** The run of entries numbered expected, expected + 1, ... in order of appearance. */
  function RunFrom(es: seq<LogEntry>, expected: int): seq<LogEntry> {
    if es == [] then []
    else if es[0].index == expected then [es[0]] + RunFrom(es[1..], expected + 1)
    else RunFrom(es[1..], expected)
  }

  /** What recovery makes of the entries found in the file. */
  function Recovered(wal: seq<LogEntry>): LogState {
    if wal == [] then LogState([], 1, 1, 0, 0)
    else LogState(wal, wal[|wal| - 1].index + 1, wal[0].index, 0, 0)
  }

  // ---- The follower's splice ----

  datatype Spliced = Spliced(log: LogState, ok: bool, appended: nat)

  /** Steps 3 and 4 of the AppendEntries receiver. `writes` is how many writes the disk accepts. */
  function SpliceEntries(s: LogState, es: seq<LogEntry>, writes: nat): Spliced
    decreases |es|
  {
    if es == [] then Spliced(s, true, 0)
    else
      var e := es[0];
      var held := s.GetEntry(e.index);
      if held.Some? && held.value.term == e.term then
        SpliceEntries(s, es[1..], writes)
      else
        var cut := if held.Some? then s.(cache := s.cache[..e.index - s.firstIndex]) else s;
        if e.index != cut.firstIndex + |cut.cache| || writes == 0 then Spliced(cut, false, 0)
        else
          var rest := SpliceEntries(cut.(cache := cut.cache + [e], nextIndex := e.index + 1), es[1..], writes - 1);
          rest.(appended := rest.appended + 1)
  }

  datatype AppendResult = AppendResult(log: LogState, matchIndex: int, conflictTerm: int, conflictIndex: int, ok: bool)

  /** AppendEntriesToLog. The fsync that ends a batch counts as one more write. */
  function AppendEntries(s: LogState, prevIndex: int, prevTerm: int, es: seq<LogEntry>, writes: nat): AppendResult {
    if prevIndex > 0 && prevIndex > s.LastIndex() then
      AppendResult(s, 0, 0, s.LastIndex() + 1, false)
    else if prevIndex > 0 && s.TermAt(prevIndex) != prevTerm then
      var term := s.TermAt(prevIndex);
      AppendResult(s, 0, term, s.ConflictStart(prevIndex, term), false)
    else
      var r := SpliceEntries(s, es, writes);
      if !r.ok || (r.appended > 0 && r.appended == writes) then AppendResult(r.log, 0, 0, 0, false)
      else AppendResult(r.log, if es == [] then prevIndex else es[|es| - 1].index, 0, 0, true)
  }

  // ---- The plain sequence ----

  predicate WellIndexed(full: seq<LogEntry>) {
    forall p :: 0 <= p < |full| ==> full[p].index == p + 1
  }

  function TermOf(full: seq<LogEntry>, index: int): int {
    if 1 <= index <= |full| then full[index - 1].term else 0
  }

  /** Cache, offset and boundary term stand for this one complete log. */
  ghost predicate Represents(s: LogState, full: seq<LogEntry>) {
    && WellIndexed(full)
    && 0 <= s.lastIncludedIndex <= |full|
    && s.firstIndex == s.lastIncludedIndex + 1
    && s.lastIncludedTerm == TermOf(full, s.lastIncludedIndex)
    && s.cache == full[s.lastIncludedIndex..]
  }

  /** From the boundary up, every accessor answers as the plain sequence does. */
  lemma AccessorsAgree(s: LogState, full: seq<LogEntry>, i: int)
    requires Represents(s, full) && s.lastIncludedIndex <= i
    ensures s.GetEntry(i) == if s.lastIncludedIndex < i <= |full| then Some(full[i - 1]) else None
    ensures s.TermAt(i) == TermOf(full, i)
  {
    var at := i - s.firstIndex;
    if 0 <= at < |s.cache| {
      assert s.cache[at] == full[i - 1];
    }
  }

  lemma LastAgrees(s: LogState, full: seq<LogEntry>)
    requires Represents(s, full)
    ensures s.LastIndex() == |full| && s.LastTerm() == TermOf(full, |full|)
  {
    if s.cache != [] {
      assert s.cache[|s.cache| - 1] == full[|full| - 1];
    }
  }

  lemma EntriesAgree(s: LogState, full: seq<LogEntry>, i: int)
    requires Represents(s, full) && s.lastIncludedIndex < i
    ensures s.EntriesFrom(i) == if i <= |full| then full[i - 1..] else []
  {
    if i <= |full| {
      assert s.cache[i - s.firstIndex..] == full[i - 1..];
    }
  }

  lemma LeaderAppendRefines(s: LogState, full: seq<LogEntry>, cmd: Command, term: int)
    requires Represents(s, full) && s.Aligned()
    ensures Represents(s.AppendLeader(cmd, term), full + [LogEntry(|full| + 1, term, cmd)])
    ensures s.AppendLeader(cmd, term).Aligned()
  {
    var grown := full + [LogEntry(|full| + 1, term, cmd)];
    assert grown[s.lastIncludedIndex..] == full[s.lastIncludedIndex..] + [LogEntry(|full| + 1, term, cmd)];
  }

  /** How many leading entries of the batch the log already holds, by index and term. */
  function Agreeing(full: seq<LogEntry>, prev: nat, es: seq<LogEntry>): (j: nat)
    ensures j <= |es| && (prev <= |full| ==> prev + j <= |full|)
    ensures forall k :: 0 <= k < j ==> prev + k < |full| && full[prev + k].term == es[k].term
    ensures j < |es| ==> prev + j >= |full| || full[prev + j].term != es[j].term
    decreases |es|
  {
    if es == [] || prev >= |full| || full[prev].term != es[0].term then 0
    else 1 + Agreeing(full, prev + 1, es[1..])
  }

  /** The paper's splice on a plain sequence, cut short after `writes` new entries:
      keep what agrees, drop from the first real conflict on, append the rest. */
  function Splice(full: seq<LogEntry>, prev: nat, es: seq<LogEntry>, writes: nat): seq<LogEntry>
    requires prev <= |full|
  {
    var j := Agreeing(full, prev, es);
    if j == |es| then full
    else full[..prev + j] + es[j..if j + writes < |es| then j + writes else |es|]
  }

  predicate Contiguous(es: seq<LogEntry>, prev: int) {
    forall k :: 0 <= k < |es| ==> es[k].index == prev + 1 + k
  }

  /** Past the end of the log the loop only appends. */
  lemma RepresentsOneMore(s: LogState, full: seq<LogEntry>, e: LogEntry)
    requires Represents(s, full) && e.index == |full| + 1
    ensures Represents(s.(cache := s.cache + [e], nextIndex := e.index + 1), full + [e])
    ensures s.GetEntry(e.index).None? && s.firstIndex + |s.cache| == e.index
  {
    assert (full + [e])[s.lastIncludedIndex..] == full[s.lastIncludedIndex..] + [e];
  }

  lemma {:induction false} AppendingRefines(s: LogState, full: seq<LogEntry>, es: seq<LogEntry>, writes: nat)
    requires Represents(s, full) && Contiguous(es, |full|)
    ensures var n := if writes < |es| then writes else |es|;
            var r := SpliceEntries(s, es, writes);
            Represents(r.log, full + es[..n]) && r.appended == n && (r.ok <==> n == |es|)
            && r.log.nextIndex == if n == 0 then s.nextIndex else |full| + n + 1
    decreases |es|
  {
    hide Represents, LogState.GetEntry;
    if es == [] {
      assert full + es[..0] == full;
    } else {
      var e := es[0];
      RepresentsOneMore(s, full, e);
      if writes == 0 {
        assert full + es[..0] == full;
      } else {
        AppendingRefines(s.(cache := s.cache + [e], nextIndex := e.index + 1), full + [e], es[1..], writes - 1);
        var n := if writes < |es| then writes else |es|;
        assert (full + [e]) + es[1..][..n - 1] == full + es[..n];
      }
    }
  }

  /** A batch whose first entry is not already held: the log is cut there and the batch appended. */
  lemma ReplacingRefines(s: LogState, full: seq<LogEntry>, prev: nat, es: seq<LogEntry>, writes: nat)
    requires Represents(s, full) && Contiguous(es, prev) && es != []
    requires s.lastIncludedIndex <= prev <= |full|
    requires prev < |full| ==> full[prev].term != es[0].term
    ensures SpliceRight(s, full, prev, es, writes)
  {
    var e := es[0];
    AccessorsAgree(s, full, prev + 1);
    var cut := if prev < |full| then s.(cache := s.cache[..e.index - s.firstIndex]) else s;
    var short := full[..prev];
    assert short[s.lastIncludedIndex..] == full[s.lastIncludedIndex..][..prev - s.lastIncludedIndex];
    assert Represents(cut, short);
    AccessorsAgree(cut, short, prev + 1);
    assert SpliceEntries(s, es, writes) == SpliceEntries(cut, es, writes);
    assert Agreeing(full, prev, es) == 0;
    hide Represents, Agreeing, SpliceEntries, LogState.GetEntry, LogState.TermAt;
    AppendingRefines(cut, short, es, writes);
    assert Splice(full, prev, es, writes) == short + es[..if writes < |es| then writes else |es|];
  }

  ghost predicate SpliceRight(s: LogState, full: seq<LogEntry>, prev: nat, es: seq<LogEntry>, writes: nat)
    requires prev <= |full|
  {
    var j := Agreeing(full, prev, es);
    var r := SpliceEntries(s, es, writes);
    && Represents(r.log, Splice(full, prev, es, writes))
    && (r.ok <==> |es| - j <= writes)
    && (r.ok ==> r.appended == |es| - j)
    && r.log.nextIndex == if j == |es| || writes == 0 then s.nextIndex else |Splice(full, prev, es, writes)| + 1
  }

  lemma AgreeingSkipsHeld(full: seq<LogEntry>, prev: nat, es: seq<LogEntry>)
    requires prev < |full| && es != [] && full[prev].term == es[0].term
    ensures Agreeing(full, prev, es) == 1 + Agreeing(full, prev + 1, es[1..])
  {
  }

  lemma TailSlice(es: seq<LogEntry>, lo: nat, hi: nat)
    requires es != [] && lo <= hi < |es|
    ensures es[1..][lo..hi] == es[lo + 1..hi + 1]
  {
  }

  lemma SpliceSkipsHeld(full: seq<LogEntry>, prev: nat, es: seq<LogEntry>, writes: nat)
    requires prev < |full| && es != [] && full[prev].term == es[0].term
    ensures Agreeing(full, prev, es) == 1 + Agreeing(full, prev + 1, es[1..])
    ensures Splice(full, prev, es, writes) == Splice(full, prev + 1, es[1..], writes)
  {
    hide Agreeing;
    AgreeingSkipsHeld(full, prev, es);
    var j := Agreeing(full, prev + 1, es[1..]);
    if j < |es| - 1 {
      TailSlice(es, j, if j + writes < |es| - 1 then j + writes else |es| - 1);
    }
  }

  lemma HeldRefines(s: LogState, full: seq<LogEntry>, prev: nat, es: seq<LogEntry>, writes: nat)
    requires prev < |full| && es != [] && full[prev].term == es[0].term
    requires s.GetEntry(es[0].index) == Some(full[prev])
    requires SpliceRight(s, full, prev + 1, es[1..], writes)
    ensures SpliceRight(s, full, prev, es, writes)
  {
    SpliceSkipsHeld(full, prev, es, writes);
    assert SpliceEntries(s, es, writes) == SpliceEntries(s, es[1..], writes);
  }

  /** The receiver's loop is the splice on the represented log: it succeeds exactly when the
      disk takes every entry not already held, and the next index moves only with an entry appended. */
  lemma {:induction false} SpliceRefines(s: LogState, full: seq<LogEntry>, prev: nat, es: seq<LogEntry>, writes: nat)
    requires Represents(s, full) && Contiguous(es, prev)
    requires s.lastIncludedIndex <= prev <= |full|
    ensures SpliceRight(s, full, prev, es, writes)
    decreases |es|
  {
    hide SpliceRight, SpliceEntries, Splice, Agreeing, Represents, LogState.GetEntry, LogState.TermAt;
    if es == [] {
      NothingRefines(s, full, prev, writes);
    } else {
      AccessorsAgree(s, full, prev + 1);
      if prev < |full| && full[prev].term == es[0].term {
        SpliceRefines(s, full, prev + 1, es[1..], writes);
        HeldRefines(s, full, prev, es, writes);
      } else {
        ReplacingRefines(s, full, prev, es, writes);
      }
    }
  }

  lemma NothingRefines(s: LogState, full: seq<LogEntry>, prev: nat, writes: nat)
    requires Represents(s, full) && prev <= |full|
    ensures SpliceRight(s, full, prev, [], writes)
  {
  }

  /** A splice leaves the next index usable exactly when it did not cut the log and then append
      nothing: the disk refused the first entry after a real conflict. */
  lemma SpliceAlignedExactlyWhen(s: LogState, full: seq<LogEntry>, prev: nat, es: seq<LogEntry>, writes: nat)
    requires Represents(s, full) && s.Aligned() && Contiguous(es, prev)
    requires s.lastIncludedIndex <= prev <= |full|
    ensures var j := Agreeing(full, prev, es);
            SpliceEntries(s, es, writes).log.Aligned() <==> !(writes == 0 && j < |es| && prev + j < |full|)
  {
    hide Agreeing, SpliceEntries;
    SpliceRefines(s, full, prev, es, writes);
    RepresentedEnd(s, full);
    RepresentedEnd(SpliceEntries(s, es, writes).log, Splice(full, prev, es, writes));
  }

  lemma RepresentedEnd(s: LogState, full: seq<LogEntry>)
    requires Represents(s, full)
    ensures s.Aligned() <==> s.nextIndex == |full| + 1
  {
  }

  /** A conflict whose replacement the disk refuses keeps the stale next index: three entries are cut
      to one, and as a leader the member then appends index 4 into the cache slot of index 2. */
  lemma RefusedBatchLosesAlignment(s: LogState, cmd: Command)
    requires s == LogState([LogEntry(1, 1, cmd), LogEntry(2, 1, cmd), LogEntry(3, 1, cmd)], 4, 1, 0, 0)
    ensures Represents(s, s.cache) && s.Aligned()
    ensures var broken := AppendEntries(s, 1, 1, [LogEntry(2, 2, cmd)], 0).log.AppendLeader(cmd, 3);
            && broken.cache == [LogEntry(1, 1, cmd), LogEntry(4, 3, cmd)]
            && broken.GetEntry(2) == Some(LogEntry(4, 3, cmd))
  {
    assert s.cache[0..] == s.cache;
    assert s.cache[..1] == [LogEntry(1, 1, cmd)];
  }

  /** An append leaves a log exactly when the next index is the one past its end. */
  lemma LeaderAppendRefinesExactlyWhen(s: LogState, full: seq<LogEntry>, cmd: Command, term: int)
    requires Represents(s, full)
    ensures (exists grown :: Represents(s.AppendLeader(cmd, term), grown)) <==> s.Aligned()
  {
    if s.Aligned() {
      LeaderAppendRefines(s, full, cmd, term);
    }
    var r := s.AppendLeader(cmd, term);
    forall grown | Represents(r, grown)
      ensures s.Aligned()
    {
      RepresentedNumbers(r, grown, |s.cache|);
    }
  }

  lemma RepresentedNumbers(s: LogState, full: seq<LogEntry>, p: nat)
    requires Represents(s, full) && p < |s.cache|
    ensures s.cache[p].index == s.firstIndex + p
  {
  }

  /** Below the boundary there is nothing to compare with: a batch is refused, the log unchanged. */
  lemma BelowBoundaryRefused(s: LogState, full: seq<LogEntry>, prev: nat, es: seq<LogEntry>, writes: nat)
    requires Represents(s, full) && Contiguous(es, prev) && prev < s.lastIncludedIndex
    ensures SpliceEntries(s, es, writes) == Spliced(s, es == [], 0)
  {
  }

  lemma {:induction false} SpliceKeepsBase(s: LogState, es: seq<LogEntry>, writes: nat)
    ensures SpliceEntries(s, es, writes).log.lastIncludedIndex == s.lastIncludedIndex
    decreases |es|
  {
    if es != [] {
      var e := es[0];
      var held := s.GetEntry(e.index);
      if held.Some? && held.value.term == e.term {
        SpliceKeepsBase(s, es[1..], writes);
      } else {
        var cut := if held.Some? then s.(cache := s.cache[..e.index - s.firstIndex]) else s;
        if e.index == cut.firstIndex + |cut.cache| && writes > 0 {
          SpliceKeepsBase(cut.(cache := cut.cache + [e], nextIndex := e.index + 1), es[1..], writes - 1);
        }
      }
    }
  }

  /** The splice shrinks the log only past a real conflict. */
  lemma SpliceShrinksOnlyOnConflict(full: seq<LogEntry>, prev: nat, es: seq<LogEntry>, writes: nat)
    requires prev <= |full| && !(full <= Splice(full, prev, es, writes))
    ensures exists k :: 0 <= k < |es| && prev + k < |full| && full[prev + k].term != es[k].term
                        && full[..prev + k] <= Splice(full, prev, es, writes)
  {
    var j := Agreeing(full, prev, es);
    assert full[..|full|] == full;
    assert j < |es| && prev + j < |full|;
  }

  /** Redelivering a batch that was stored changes nothing. */
  lemma SpliceIdempotent(full: seq<LogEntry>, prev: nat, es: seq<LogEntry>)
    requires prev <= |full|
    ensures prev <= |Splice(full, prev, es, |es|)|
    ensures Splice(Splice(full, prev, es, |es|), prev, es, |es|) == Splice(full, prev, es, |es|)
  {
    var once := Splice(full, prev, es, |es|);
    var j := Agreeing(full, prev, es);
    var again := Agreeing(once, prev, es);
    assert forall k :: 0 <= k < |es| ==> prev + k < |once| && once[prev + k].term == es[k].term;
    assert again == |es|;
  }

  /** The batch is a stretch of the sender's log, and equal terms mean equal history up to there. */
  ghost predicate Continues(full: seq<LogEntry>, prev: nat, es: seq<LogEntry>, sender: seq<LogEntry>) {
    && prev <= |full| && prev + |es| <= |sender|
    && full[..prev] <= sender && es == sender[prev..prev + |es|]
    && (forall p :: 0 <= p < |full| && p < |sender| && full[p].term == sender[p].term ==> full[..p + 1] <= sender)
  }

  lemma Stretches(sender: seq<LogEntry>, prev: nat, es: seq<LogEntry>, j: nat, hi: nat)
    requires prev + |es| <= |sender| && es == sender[prev..prev + |es|] && j <= hi <= |es|
    ensures sender[..prev + j] + es[j..hi] == sender[..prev + hi]
  {
    assert forall k :: j <= k < hi ==> es[k] == sender[prev + k];
  }

  /** What a splice leaves is the old log or a prefix of the sender's, the whole batch if it was stored. */
  lemma SpliceFollowsSender(full: seq<LogEntry>, prev: nat, es: seq<LogEntry>, writes: nat, sender: seq<LogEntry>)
    requires Continues(full, prev, es, sender)
    ensures var r := Splice(full, prev, es, writes);
            && (r == full || r <= sender)
            && (|es| - Agreeing(full, prev, es) <= writes ==> sender[..prev + |es|] <= r)
  {
    hide Agreeing;
    var j := Agreeing(full, prev, es);
    SharedStretch(full, prev, es, sender);
    assert full[..prev + j] == sender[..prev + j];
    hide Continues;
    if j < |es| {
      Stretches(sender, prev, es, j, if j + writes < |es| then j + writes else |es|);
    }
  }

  lemma SharedStretch(full: seq<LogEntry>, prev: nat, es: seq<LogEntry>, sender: seq<LogEntry>)
    requires Continues(full, prev, es, sender)
    ensures full[..prev + Agreeing(full, prev, es)] <= sender
  {
    var j := Agreeing(full, prev, es);
    if j > 0 {
      assert es[j - 1] == sender[prev + j - 1];
      assert full[prev + j - 1].term == sender[prev + j - 1].term;
    }
  }

  /** Whatever the log and the sender have in common survives the splice. */
  lemma SpliceKeepsShared(full: seq<LogEntry>, prev: nat, es: seq<LogEntry>, writes: nat, sender: seq<LogEntry>,
                          shared: seq<LogEntry>)
    requires Continues(full, prev, es, sender) && shared <= full && shared <= sender
    ensures shared <= Splice(full, prev, es, writes)
  {
    var j := Agreeing(full, prev, es);
    SharedStretch(full, prev, es, sender);
    if j < |es| {
      assert es[j] == sender[prev + j];
      assert prev + j < |full| ==> full[prev + j].term != sender[prev + j].term;
      assert |shared| <= prev + j;
    }
  }

  // ---- Compaction and snapshots ----

  lemma {:induction false} AboveIsSuffix(full: seq<LogEntry>, from: nat, boundary: nat)
    requires WellIndexed(full) && from <= boundary && from <= |full|
    ensures Above(full[from..], boundary) == if boundary <= |full| then full[boundary..] else []
    decreases |full| - from
  {
    if from < |full| {
      assert full[from..][1..] == full[from + 1..];
      if from < boundary {
        AboveIsSuffix(full, from + 1, boundary);
      } else {
        AllAbove(full, from + 1, boundary);
        assert full[from..] == [full[from]] + full[from + 1..];
      }
    }
  }

  lemma {:induction false} AllAbove(full: seq<LogEntry>, from: nat, boundary: nat)
    requires WellIndexed(full) && boundary <= from <= |full|
    ensures Above(full[from..], boundary) == full[from..]
    decreases |full| - from
  {
    if from < |full| {
      assert full[from..][1..] == full[from + 1..];
      AllAbove(full, from + 1, boundary);
      assert full[from..] == [full[from]] + full[from + 1..];
    }
  }

  /** Compaction changes the representation, never the log. */
  lemma CompactionRefines(s: LogState, full: seq<LogEntry>, index: int)
    requires Represents(s, full) && s.lastIncludedIndex <= index <= |full|
    ensures Represents(s.TruncateBefore(index, TermOf(full, index)), full)
    ensures s.Aligned() ==> s.TruncateBefore(index, TermOf(full, index)).Aligned()
    ensures s.TruncateBefore(index, TermOf(full, index)).lastIncludedIndex == index
  {
    AboveIsSuffix(full, s.lastIncludedIndex, index);
  }

  /** Installing a snapshot: a log that contains it is unchanged, any other becomes the snapshot's prefix. */
  lemma ResetRefines(s: LogState, full: seq<LogEntry>, prefix: seq<LogEntry>)
    requires Represents(s, full) && WellIndexed(prefix) && |prefix| > s.lastIncludedIndex
    ensures var r := s.ResetToSnapshot(|prefix|, TermOf(prefix, |prefix|));
            && r.lastIncludedIndex == |prefix|
            && (if |prefix| <= |full| && TermOf(full, |prefix|) == TermOf(prefix, |prefix|)
                then Represents(r, full)
                else Represents(r, prefix))
  {
    AccessorsAgree(s, full, |prefix|);
    AboveIsSuffix(full, s.lastIncludedIndex, |prefix|);
  }

  /** ResetToSnapshot leaves the next index usable exactly when the snapshot is old news,
      is contained in the log, or reaches at least the log's end. */
  lemma ResetAlignedExactlyWhen(s: LogState, full: seq<LogEntry>, index: int, term: int)
    requires Represents(s, full) && s.Aligned()
    ensures s.ResetToSnapshot(index, term).Aligned()
            <==> index <= s.lastIncludedIndex || TermOf(full, index) == term || |full| <= index
  {
    if index > s.lastIncludedIndex {
      AccessorsAgree(s, full, index);
      AboveIsSuffix(full, s.lastIncludedIndex, index);
    }
  }

  lemma ResetNext(s: LogState, full: seq<LogEntry>, index: int, term: int)
    requires Represents(s, full) && s.lastIncludedIndex < index
    ensures s.ResetToSnapshot(index, term).nextIndex
            == if index < |full| && TermOf(full, index) == term then |full| + 1
               else if s.nextIndex < index + 1 then index + 1 else s.nextIndex
  {
    AccessorsAgree(s, full, index);
    AboveIsSuffix(full, s.lastIncludedIndex, index);
  }

  /** Discarding a longer, conflicting log keeps the stale next index: a leader would then
      append at index 11 into the cache slot of index 6. */
  lemma ResetLosesAlignment(s: LogState, cmd: Command)
    requires s == LogState(seq(10, i => LogEntry(i + 1, 1, cmd)), 11, 1, 0, 0)
    ensures Represents(s, s.cache) && s.Aligned()
    ensures var broken := s.ResetToSnapshot(5, 2).AppendLeader(cmd, 3);
            broken.cache == [LogEntry(11, 3, cmd)] && broken.GetEntry(6) == Some(LogEntry(11, 3, cmd))
  {
    assert s.cache[0..] == s.cache;
    assert s.GetEntry(5) == Some(LogEntry(5, 1, cmd));
  }

  // ---- Crash between persisting a snapshot and cutting the log ----

  lemma {:induction false} RunIsSuffix(full: seq<LogEntry>, from: nat, boundary: nat)
    requires WellIndexed(full) && from <= |full|
    ensures from <= boundary
            ==> RunFrom(full[from..], boundary + 1) == if boundary <= |full| then full[boundary..] else []
    ensures boundary < from ==> RunFrom(full[from..], boundary + 1) == []
    decreases |full| - from
  {
    if from < |full| {
      assert full[from..][1..] == full[from + 1..];
      RunIsSuffix(full, from + 1, if from == boundary then boundary + 1 else boundary);
      assert full[from..] == [full[from]] + full[from + 1..];
    }
  }

  lemma RestoredWal(s: LogState, full: seq<LogEntry>, index: nat, term: int)
    requires Represents(s, full) && s.lastIncludedIndex <= index
    ensures Recovered(s.cache).RestoreOffset(index, term)
            == if index <= |full| then LogState(full[index..], |full| + 1, index + 1, index, term)
               else LogState([], index + 1, index + 1, index, term)
  {
    RunIsSuffix(full, s.lastIncludedIndex, index);
    assert Recovered(s.cache).cache == s.cache;
  }

  /** Compaction: recovering the uncut log against the persisted snapshot gives the cut log. */
  lemma CrashDuringCompaction(s: LogState, full: seq<LogEntry>, index: int)
    requires Represents(s, full) && s.Aligned() && s.lastIncludedIndex <= index <= |full|
    ensures Recovered(s.cache).RestoreOffset(index, TermOf(full, index)) == s.TruncateBefore(index, TermOf(full, index))
  {
    RestoredWal(s, full, index, TermOf(full, index));
    CompactionRefines(s, full, index);
  }

  /** InstallSnapshot: the two agree exactly when the file's own term at the boundary
      matches the snapshot's, or the file ends at or below the boundary. */
  lemma CrashDuringInstall(s: LogState, full: seq<LogEntry>, index: int, term: int)
    requires Represents(s, full) && s.Aligned() && s.lastIncludedIndex < index
    ensures Recovered(s.cache).RestoreOffset(index, term) == s.ResetToSnapshot(index, term)
            <==> TermOf(full, index) == term || |full| <= index
  {
    RestoredWal(s, full, index, term);
    AccessorsAgree(s, full, index);
    AboveIsSuffix(full, s.lastIncludedIndex, index);
  }

  /** The failing case keeps a suffix that never followed the snapshot's entries. */
  lemma CrashDuringInstallKeepsStaleSuffix(s: LogState, cmd: Command)
    requires s == LogState([LogEntry(1, 1, cmd), LogEntry(2, 1, cmd), LogEntry(3, 1, cmd)], 4, 1, 0, 0)
    ensures Recovered(s.cache).RestoreOffset(2, 2).GetEntry(3) == Some(LogEntry(3, 1, cmd))
    ensures s.ResetToSnapshot(2, 2).GetEntry(3) == None
  {
    assert s.cache[0..] == s.cache;
    RestoredWal(s, s.cache, 2, 2);
    assert s.GetEntry(2) == Some(LogEntry(2, 1, cmd));
  }

  /** Recovering the file of an intact log, with the snapshot it was cut at, gives the log back. */
  lemma RestartRefines(s: LogState, full: seq<LogEntry>)
    requires Represents(s, full)
    ensures Represents(Recovered(s.cache).RestoreOffset(s.lastIncludedIndex, s.lastIncludedTerm), full)
    ensures Recovered(s.cache).RestoreOffset(s.lastIncludedIndex, s.lastIncludedTerm).Aligned()
    ensures s.lastIncludedIndex == 0 ==> Recovered(s.cache) == Recovered(s.cache).RestoreOffset(0, 0)
  {
    RestoredWal(s, full, s.lastIncludedIndex, s.lastIncludedTerm);
    assert s.lastIncludedIndex == 0 ==> full[0..] == full;
  }
}
