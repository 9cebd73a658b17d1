/** The write-ahead log as bytes: framing and recovery (internal/raft/log.go). The entry encoding
    is a parameter; all that is asked of it, and only for the entries written, is that decoding inverts
    encoding and that a payload's length fits in 32 bits. */
module Wal {
  import opened Store
  import opened RaftLog

  newtype Byte = x: int | 0 <= x < 256

  type Bytes = seq<Byte>

  const WORD := 0x1_0000_0000

  datatype Codec = Codec(encode: LogEntry -> Bytes, decode: Bytes -> Option<LogEntry>) {
    predicate Faithful(es: seq<LogEntry>) {
      forall e :: e in es ==> |encode(e)| < WORD && decode(encode(e)) == Some(e)
    }
  }

  /** uint32(n) in big-endian order. */
  function BigEndian(n: nat): (bs: Bytes)
    ensures |bs| == 4
  {
    var w := n % WORD;
    [(w / 0x100_0000) as Byte, (w / 0x1_0000 % 0x100) as Byte, (w / 0x100 % 0x100) as Byte, (w % 0x100) as Byte]
  }

  /** Most significant byte first. */
  lemma NetworkOrder(n: nat)
    ensures var bs := BigEndian(n);
            ((bs[0] as int * 256 + bs[1] as int) * 256 + bs[2] as int) * 256 + bs[3] as int == n % WORD
  {
    var w := n % WORD;
    assert w == w / 0x100 * 0x100 + w % 0x100;
    assert w / 0x100 == w / 0x1_0000 * 0x100 + w / 0x100 % 0x100;
    assert w / 0x1_0000 == w / 0x100_0000 * 0x100 + w / 0x1_0000 % 0x100;
  }

  function Length(bs: Bytes): (n: nat)
    requires |bs| >= 4
    ensures n < WORD
  {
    bs[0] as int * 0x100_0000 + bs[1] as int * 0x1_0000 + bs[2] as int * 0x100 + bs[3] as int
  }

  lemma LengthOfPrefix(bs: Bytes, more: Bytes)
    requires |bs| >= 4
    ensures Length(bs + more) == Length(bs)
  {
  }

  lemma LengthRoundTrip(n: nat, rest: Bytes)
    ensures Length(BigEndian(n) + rest) == n % WORD
  {
    var w := n % WORD;
    assert w == w / 0x100 * 0x100 + w % 0x100;
    assert w / 0x100 == w / 0x1_0000 * 0x100 + w / 0x100 % 0x100;
    assert w / 0x1_0000 == w / 0x100_0000 * 0x100 + w / 0x1_0000 % 0x100;
  }

  // ---- Writing ----

  /** writeEntryTo: four length bytes, then the payload. */
  function Frame(c: Codec, e: LogEntry): Bytes {
    BigEndian(|c.encode(e)|) + c.encode(e)
  }

  function Framed(c: Codec, es: seq<LogEntry>): Bytes {
    if es == [] then [] else Frame(c, es[0]) + Framed(c, es[1..])
  }

  // ---- Reading ----

  /** What a scan makes of a file: the complete frames and the bytes they take, or the offset
      of a frame whose payload does not decode. */
  datatype Recovery = Intact(entries: seq<LogEntry>, used: nat) | Corrupt(at: nat)

  /** A frame in front of what the rest of the file holds. */
  function Prepend(es: seq<LogEntry>, used: nat, r: Recovery): Recovery {
    match r
    case Intact(more, n) => Intact(es + more, used + n)
    case Corrupt(at) => Corrupt(used + at)
  }

  function Scan(c: Codec, bytes: Bytes): (r: Recovery)
    ensures r.Intact? ==> r.used <= |bytes|
    decreases |bytes|
  {
    if |bytes| < 4 || |bytes| - 4 < Length(bytes) then Intact([], 0)
    else
      var next := 4 + Length(bytes);
      match c.decode(bytes[4..next])
      case None => Corrupt(0)
      case Some(e) => Prepend([e], next, Scan(c, bytes[next..]))
  }

  /** What the loop finds at the front of the remaining bytes. */
  lemma ScanFront(c: Codec, bytes: Bytes)
    ensures |bytes| < 4 || |bytes| - 4 < Length(bytes) ==> Scan(c, bytes) == Intact([], 0)
    ensures |bytes| >= 4 && |bytes| - 4 >= Length(bytes) ==>
              var next := 4 + Length(bytes);
              Scan(c, bytes) == match c.decode(bytes[4..next])
                                case None => Corrupt(0)
                                case Some(e) => Prepend([e], next, Scan(c, bytes[next..]))
  {
    hide Length;
  }

  /** The recovery loop: read a length, read a payload, stop at the first incomplete frame and
      cut the file there. The log fields follow the entries as they are found. */
  method Recover(c: Codec, file: Bytes) returns (log: LogState, kept: Bytes, corrupt: bool)
    ensures corrupt <==> Scan(c, file).Corrupt?
    ensures !corrupt ==> log == Recovered(Scan(c, file).entries) && kept == file[..Scan(c, file).used]
    ensures corrupt ==> kept == file
  {
    hide Length, Scan;
    log, kept, corrupt := LogState([], 1, 1, 0, 0), file, false;
    assert file[0..] == file;
    PrependNothing(Scan(c, file));
    var pos, lastGoodPos := 0, 0;
    while true
      invariant 0 <= pos == lastGoodPos <= |file| && kept == file && !corrupt
      invariant log == Recovered(log.cache)
      invariant Scan(c, file) == Prepend(log.cache, pos, Scan(c, file[pos..]))
      decreases |file| - pos
    {
      var rest := file[pos..];
      ScanFront(c, rest);
      if |rest| < 4 {
        kept := file[..lastGoodPos];
        break;
      }
      var length := Length(rest);
      if |rest| - 4 < length {
        kept := file[..lastGoodPos];
        break;
      }
      var next := 4 + length;
      var entry := c.decode(rest[4..next]);
      if entry.None? {
        corrupt := true;
        return;
      }
      assert rest[next..] == file[pos + next..];
      PrependTwice(log.cache, pos, [entry.value], next, Scan(c, file[pos + next..]));
      log := Extended(log, entry.value);
      pos := pos + next;
      lastGoodPos := pos;
    }
    assert log.cache + [] == log.cache;
  }

  /** The fields after one more recovered entry; the first one fixes where the log starts. */
  function Extended(log: LogState, e: LogEntry): (r: LogState)
    requires log == Recovered(log.cache)
    ensures r == Recovered(log.cache + [e]) && r.cache == log.cache + [e]
  {
    var started := if |log.cache| == 0 then log.(firstIndex := e.index) else log;
    started.(cache := started.cache + [e], nextIndex := e.index + 1)
  }

  lemma PrependNothing(r: Recovery)
    ensures Prepend([], 0, r) == r
  {
    assert r.Intact? ==> [] + r.entries == r.entries;
  }

  lemma PrependTwice(a: seq<LogEntry>, m: nat, b: seq<LogEntry>, n: nat, r: Recovery)
    ensures Prepend(a, m, Prepend(b, n, r)) == Prepend(a + b, m + n, r)
  {
    if r.Intact? {
      assert a + (b + r.entries) == (a + b) + r.entries;
    }
  }

  // ---- The round trip under any cut ----

  lemma FaithfulOn(c: Codec, es: seq<LogEntry>, some: seq<LogEntry>)
    requires c.Faithful(es) && forall e :: e in some ==> e in es
    ensures c.Faithful(some)
  {
  }

  lemma FrameLength(c: Codec, e: LogEntry)
    requires c.Faithful([e])
    ensures |Frame(c, e)| == 4 + |c.encode(e)| && |c.encode(e)| < WORD && c.decode(c.encode(e)) == Some(e)
  {
    assert e in [e];
  }

  lemma FrameParts(c: Codec, e: LogEntry, rest: Bytes)
    requires c.Faithful([e])
    ensures var bytes := Frame(c, e) + rest;
            var next := 4 + |c.encode(e)|;
            && Length(bytes) == |c.encode(e)| && |bytes| == next + |rest|
            && bytes[4..next] == c.encode(e) && bytes[next..] == rest
  {
    var data := c.encode(e);
    FrameLength(c, e);
    LengthRoundTrip(|data|, data + rest);
    hide Length, BigEndian;
    assert Frame(c, e) + rest == BigEndian(|data|) + (data + rest);
  }

  lemma ScanFrame(c: Codec, e: LogEntry, rest: Bytes)
    requires c.Faithful([e])
    ensures Scan(c, Frame(c, e) + rest) == Prepend([e], |Frame(c, e)|, Scan(c, rest))
  {
    hide Length, Frame;
    FrameLength(c, e);
    FrameParts(c, e, rest);
  }

  /** A frame cut anywhere inside is not read. */
  lemma ScanTorn(c: Codec, e: LogEntry, k: nat)
    requires c.Faithful([e]) && k < |Frame(c, e)|
    ensures Scan(c, Frame(c, e)[..k]) == Intact([], 0)
  {
    var data := c.encode(e);
    FrameLength(c, e);
    if k >= 4 {
      assert Frame(c, e)[..k] == BigEndian(|data|) + data[..k - 4];
      LengthRoundTrip(|data|, data[..k - 4]);
    }
  }

  /** The number of frames that are complete within the first k bytes. */
  function Complete(c: Codec, es: seq<LogEntry>, k: nat): (m: nat)
    ensures m <= |es| && |Framed(c, es[..m])| <= k
    ensures m < |es| ==> k < |Framed(c, es[..m + 1])|
  {
    if es == [] || k < |Frame(c, es[0])| then
      FramedOne(c, es);
      0
    else
      var n := |Frame(c, es[0])|;
      var m := Complete(c, es[1..], k - n);
      FramedFrom(c, es, m);
      1 + m
  }

  lemma FramedOne(c: Codec, es: seq<LogEntry>)
    ensures es != [] ==> Framed(c, es[..1]) == Frame(c, es[0])
  {
    if es != [] {
      assert es[..1][1..] == [];
    }
  }

  lemma FramedFrom(c: Codec, es: seq<LogEntry>, m: nat)
    requires es != [] && m <= |es| - 1
    ensures |Framed(c, es[..m + 1])| == |Frame(c, es[0])| + |Framed(c, es[1..][..m])|
    ensures m + 1 < |es| ==> |Framed(c, es[..m + 2])| == |Frame(c, es[0])| + |Framed(c, es[1..][..m + 1])|
  {
    assert es[..m + 1][1..] == es[1..][..m];
    if m + 1 < |es| {
      assert es[..m + 2][1..] == es[1..][..m + 1];
    }
  }

  /** For every log and every cut of its file: exactly the entries whose frames are complete come
      back, and the file is cut to their total length. */
  lemma {:induction false} RecoveryUnderAnyCut(c: Codec, es: seq<LogEntry>, k: nat)
    requires c.Faithful(es) && k <= |Framed(c, es)|
    ensures var m := Complete(c, es, k);
            Scan(c, Framed(c, es)[..k]) == Intact(es[..m], |Framed(c, es[..m])|)
    decreases |es|
  {
    hide Length, BigEndian, Frame, Scan, Codec.Faithful;
    if es == [] {
      ScanFront(c, []);
    } else if k < |Frame(c, es[0])| {
      FaithfulOn(c, es, [es[0]]);
      assert Framed(c, es)[..k] == Frame(c, es[0])[..k];
      ScanTorn(c, es[0], k);
    } else {
      var n := |Frame(c, es[0])|;
      FaithfulOn(c, es, es[1..]);
      RecoveryUnderAnyCut(c, es[1..], k - n);
      CutFurther(c, es, k);
      FramedFrom(c, es, Complete(c, es[1..], k - n));
    }
  }

  /** A cut behind the first frame reads it and goes on with the rest. */
  lemma CutFurther(c: Codec, es: seq<LogEntry>, k: nat)
    requires c.Faithful(es) && es != [] && |Frame(c, es[0])| <= k <= |Framed(c, es)|
    ensures var n := |Frame(c, es[0])|;
            Scan(c, Framed(c, es)[..k]) == Prepend([es[0]], n, Scan(c, Framed(c, es[1..])[..k - n]))
  {
    FaithfulOn(c, es, [es[0]]);
    hide Length, BigEndian, Frame, Scan, Codec.Faithful;
    var n := |Frame(c, es[0])|;
    assert Framed(c, es)[..k] == Frame(c, es[0]) + Framed(c, es[1..])[..k - n];
    ScanFrame(c, es[0], Framed(c, es[1..])[..k - n]);
  }

  /** Nothing is lost when the file is whole. */
  lemma RecoveryIsInverse(c: Codec, es: seq<LogEntry>)
    requires c.Faithful(es)
    ensures Scan(c, Framed(c, es)) == Intact(es, |Framed(c, es)|)
  {
    var k := |Framed(c, es)|;
    RecoveryUnderAnyCut(c, es, k);
    assert Framed(c, es)[..k] == Framed(c, es);
    var m := Complete(c, es, k);
    if m < |es| {
      ShorterPrefix(c, es, m + 1);
      assert false;
    }
    assert es[..m] == es;
  }

  lemma {:induction false} ShorterPrefix(c: Codec, es: seq<LogEntry>, m: nat)
    requires m <= |es|
    ensures |Framed(c, es[..m])| <= |Framed(c, es)|
    decreases m
  {
    if m > 0 {
      assert es[..m][1..] == es[1..][..m - 1];
      ShorterPrefix(c, es[1..], m - 1);
    }
  }

  // ---- After recovery, on any file whatever ----

  /** A complete first frame is read the same way whatever follows it. */
  lemma ScanStep(c: Codec, bytes: Bytes, tail: Bytes)
    requires |bytes| >= 4 && |bytes| - 4 >= Length(bytes)
    ensures var next := 4 + Length(bytes);
            Scan(c, bytes + tail) == match c.decode(bytes[4..next])
                                     case None => Corrupt(0)
                                     case Some(e) => Prepend([e], next, Scan(c, bytes[next..] + tail))
  {
    LengthOfPrefix(bytes, tail);
    hide Length;
    var next := 4 + Length(bytes);
    assert (bytes + tail)[4..next] == bytes[4..next] && (bytes + tail)[next..] == bytes[next..] + tail;
  }

  /** Recovering a recovered file changes nothing, whatever bytes it held before. */
  lemma {:induction false} RecoveryIsIdempotent(c: Codec, bytes: Bytes)
    requires Scan(c, bytes).Intact?
    ensures Scan(c, bytes[..Scan(c, bytes).used]) == Scan(c, bytes)
    decreases |bytes|
  {
    hide Length;
    if |bytes| >= 4 && |bytes| - 4 >= Length(bytes) {
      var next := 4 + Length(bytes);
      var r := Scan(c, bytes[next..]);
      RecoveryIsIdempotent(c, bytes[next..]);
      ScanShortened(c, bytes, if r.Intact? then r.used else 0);
    }
  }

  /** A file cut behind its first frame. */
  lemma ScanShortened(c: Codec, bytes: Bytes, used: nat)
    requires |bytes| >= 4 && 4 + Length(bytes) + used <= |bytes|
    ensures var next := 4 + Length(bytes);
            Scan(c, bytes[..next + used]) == match c.decode(bytes[4..next])
                                             case None => Corrupt(0)
                                             case Some(e) => Prepend([e], next, Scan(c, bytes[next..][..used]))
  {
    var next := 4 + Length(bytes);
    var short := bytes[..next + used];
    LengthOfPrefix(short, bytes[next + used..]);
    hide Length, Scan;
    assert short + bytes[next + used..] == bytes;
    ScanFront(c, short);
    assert short[4..next] == bytes[4..next] && short[next..] == bytes[next..][..used];
  }

  /** Bytes after a fully read file are scanned on their own. */
  lemma {:induction false} ScanContinues(c: Codec, bytes: Bytes, tail: Bytes)
    requires Scan(c, bytes).Intact? && Scan(c, bytes).used == |bytes|
    ensures Scan(c, bytes + tail) == Prepend(Scan(c, bytes).entries, |bytes|, Scan(c, tail))
    decreases |bytes|
  {
    hide Length;
    if |bytes| < 4 || |bytes| - 4 < Length(bytes) {
      assert bytes + tail == tail;
      assert Scan(c, tail).Intact? ==> [] + Scan(c, tail).entries == Scan(c, tail).entries;
    } else {
      var next := 4 + Length(bytes);
      var r := Scan(c, bytes[next..]);
      ScanContinues(c, bytes[next..], tail);
      ScanStep(c, bytes, tail);
      PrependTwice([c.decode(bytes[4..next]).value], next, r.entries, |bytes| - next, Scan(c, tail));
    }
  }

  /** Entries appended after a recovery come back behind the recovered ones, under any later cut:
      crash, recover, append, crash again, recover. */
  lemma AppendsAfterRecovery(c: Codec, bytes: Bytes, es: seq<LogEntry>, k: nat)
    requires c.Faithful(es) && Scan(c, bytes).Intact? && k <= |Framed(c, es)|
    ensures var r := Scan(c, bytes);
            var m := Complete(c, es, k);
            Scan(c, bytes[..r.used] + Framed(c, es)[..k]) == Intact(r.entries + es[..m], r.used + |Framed(c, es[..m])|)
  {
    RecoveryIsIdempotent(c, bytes);
    ScanContinues(c, bytes[..Scan(c, bytes).used], Framed(c, es)[..k]);
    RecoveryUnderAnyCut(c, es, k);
  }

  lemma ScanStopsExactlyWhen(c: Codec, bytes: Bytes)
    ensures Scan(c, bytes) == Intact([], 0) <==> |bytes| < 4 || |bytes| - 4 < Length(bytes)
  {
    hide Length, Scan;
    ScanFront(c, bytes);
  }

  lemma TornLength(c: Codec, e: LogEntry, k: nat, tail: Bytes)
    requires c.Faithful([e]) && 4 <= k < |Frame(c, e)|
    ensures |Frame(c, e)[..k] + tail| == k + |tail| && Length(Frame(c, e)[..k] + tail) == |c.encode(e)|
  {
    var data := c.encode(e);
    FrameLength(c, e);
    LengthRoundTrip(|data|, data[..k - 4] + tail);
    hide Length, BigEndian;
    assert Frame(c, e)[..k] + tail == BigEndian(|data|) + (data[..k - 4] + tail);
  }

  /** Why the torn frame must be cut off: of an entry appended to it as it stands nothing is read,
      exactly when the torn payload still takes up all of its frame. */
  lemma AppendAfterTornFrameIsLost(c: Codec, e: LogEntry, next: LogEntry, k: nat)
    requires c.Faithful([e, next]) && 4 <= k < |Frame(c, e)|
    ensures Scan(c, Frame(c, e)[..k] + Frame(c, next)) == Intact([], 0)
            <==> k - 4 + |Frame(c, next)| < |c.encode(e)|
    ensures Scan(c, Frame(c, next)) == Intact([next], |Frame(c, next)|)
  {
    FaithfulOn(c, [e, next], [e]);
    FaithfulOn(c, [e, next], [next]);
    hide *;
    TornLength(c, e, k, Frame(c, next));
    ScanStopsExactlyWhen(c, Frame(c, e)[..k] + Frame(c, next));
    RecoveryIsInverse(c, [next]);
    FramedSingle(c, next);
  }

  lemma FramedSingle(c: Codec, e: LogEntry)
    ensures Framed(c, [e]) == Frame(c, e)
  {
    hide Frame;
    assert [e][1..] == [];
  }

  // ---- Such encodings exist ----

  function Position(es: seq<LogEntry>, e: LogEntry): (k: nat)
    requires e in es
    ensures k < |es| && es[k] == e
  {
    if es[0] == e then 0 else 1 + Position(es[1..], e)
  }

  function Padding(n: nat): (bs: Bytes)
    ensures |bs| == 5 * n
  {
    seq(5 * n, _ => 0)
  }

  /** An entry as its position, earlier ones with more padding. */
  function Number(es: seq<LogEntry>, e: LogEntry): Bytes {
    if e in es then BigEndian(Position(es, e)) + Padding(|es| - 1 - Position(es, e)) else []
  }

  function Lookup(es: seq<LogEntry>, bs: Bytes): Option<LogEntry> {
    if |bs| >= 4 && Length(bs) < |es| then Some(es[Length(bs)]) else None
  }

  function Numbering(es: seq<LogEntry>): Codec {
    Codec(e => Number(es, e), bs => Lookup(es, bs))
  }

  lemma NumberingInverts(es: seq<LogEntry>, e: LogEntry)
    requires e in es && 4 + 5 * |es| < WORD
    ensures |Number(es, e)| < WORD && Lookup(es, Number(es, e)) == Some(e)
  {
    hide BigEndian, Length, Padding, Position;
    LengthRoundTrip(Position(es, e), Padding(|es| - 1 - Position(es, e)));
  }

  /** Every log whose positions fit the frame length has an encoding that is faithful on it. */
  lemma EveryLogCanBeEncoded(es: seq<LogEntry>)
    requires 4 + 5 * |es| < WORD
    ensures Numbering(es).Faithful(es)
  {
    hide Number, Lookup;
    forall e | e in es
      ensures |Number(es, e)| < WORD && Lookup(es, Number(es, e)) == Some(e)
    {
      NumberingInverts(es, e);
    }
  }

  /** And a torn frame can swallow the next entry. */
  lemma SomeEntryIsLost(e: LogEntry, next: LogEntry)
    requires e != next
    ensures var c := Numbering([e, next]);
            c.Faithful([e, next]) && 4 < |Frame(c, e)| && Scan(c, Frame(c, e)[..4] + Frame(c, next)) == Intact([], 0)
  {
    var c := Numbering([e, next]);
    EveryLogCanBeEncoded([e, next]);
    assert Position([e, next], e) == 0 && Position([e, next], next) == 1;
    assert |c.encode(e)| == 9 && |Frame(c, next)| == 8;
    AppendAfterTornFrameIsLost(c, e, next, 4);
  }
}
