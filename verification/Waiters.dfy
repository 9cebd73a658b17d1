/** The engine's lists of clients waiting for a result (internal/engine/engine.go and quorum.go):
    writes, linearizable reads and apply waits. Each is one slice, filtered in place, and every
    client that was registered gets exactly one result. */
module Waiters {
  import opened Sets
  import opened Store
  import opened Consensus
  import opened Cluster

  // ---- Filtering ----

  /** The waiters a pass leaves in the list. */
  function Kept<T, R>(xs: seq<T>, decide: T -> Option<R>): seq<T> {
    if xs == [] then []
    else
      var w := xs[|xs| - 1];
      Kept(xs[..|xs| - 1], decide) + if decide(w).None? then [w] else []
  }

  /** The results a pass sends, in order. */
  function Sent<T, R>(xs: seq<T>, decide: T -> Option<R>): seq<(T, R)> {
    if xs == [] then []
    else
      var w := xs[|xs| - 1];
      Sent(xs[..|xs| - 1], decide) + match decide(w) { case None => [] case Some(r) => [(w, r)] }
  }

  function Recipients<T, R>(sent: seq<(T, R)>): seq<T> {
    seq(|sent|, i requires 0 <= i < |sent| => sent[i].0)
  }

  lemma RecipientsSplit<T, R>(a: seq<(T, R)>, b: seq<(T, R)>)
    ensures Recipients(a + b) == Recipients(a) + Recipients(b)
  {
  }

  /** No waiter is lost or duplicated by a pass: each stays or is answered. */
  lemma {:induction false} FilterConserves<T, R>(xs: seq<T>, decide: T -> Option<R>)
    ensures multiset(Kept(xs, decide)) + multiset(Recipients(Sent(xs, decide))) == multiset(xs)
    ensures forall p :: p in Sent(xs, decide) ==> decide(p.0) == Some(p.1)
    ensures forall w :: w in Kept(xs, decide) ==> decide(w) == None
  {
    if xs != [] {
      var w, rest := xs[|xs| - 1], xs[..|xs| - 1];
      FilterConserves(rest, decide);
      assert xs == rest + [w];
      match decide(w)
      case None =>
        assert Sent(xs, decide) == Sent(rest, decide);
      case Some(r) =>
        assert Kept(xs, decide) == Kept(rest, decide);
        RecipientsSplit(Sent(rest, decide), [(w, r)]);
        assert Recipients([(w, r)]) == [w];
    }
  }

  // ---- The list object ----

  datatype Op<!T, R> = Registers(waiter: T) | Resolves(decide: T -> Option<R>) | FailsAll(result: R)

  datatype Book<T, R> = Book(pending: seq<T>, results: seq<(T, R)>)

  /** What a list holds and has sent after one operation. */
  function After<T, R>(b: Book<T, R>, op: Op<T, R>): Book<T, R> {
    match op
    case Registers(w) => Book(b.pending + [w], b.results)
    case Resolves(decide) => Book(Kept(b.pending, decide), b.results + Sent(b.pending, decide))
    case FailsAll(r) => Book([], b.results + Sent(b.pending, _ => Some(r)))
  }

  /** One of the engine's lists. `results` is everything sent so far. */
  class WaiterList<T, R> {
    var buffer: array<T>
    var count: nat
    var results: seq<(T, R)>

    ghost predicate Valid()
      reads this
    {
      count <= buffer.Length
    }

    ghost function Contents(): Book<T, R>
      requires Valid()
      reads this, buffer
    {
      Book(buffer[..count], results)
    }

    constructor ()
      ensures Valid() && fresh(buffer) && Contents() == Book([], [])
    {
      buffer := new T[0];
      count, results := 0, [];
    }

    /** append: grows into a new array when the old one is full. */
    method Register(w: T)
      requires Valid()
      modifies this`buffer, this`count, buffer
      ensures Valid() && (buffer == old(buffer) || fresh(buffer))
      ensures Contents() == After(old(Contents()), Registers(w))
    {
      if count == buffer.Length {
        var bigger := new T[2 * count + 1](_ => w);
        var i := 0;
        while i < count
          invariant 0 <= i <= count == buffer.Length && fresh(bigger) && bigger.Length == 2 * count + 1
          invariant bigger[..i] == old(buffer[..i]) && buffer == old(buffer) && buffer[..] == old(buffer[..])
        {
          bigger[i] := buffer[i];
          i := i + 1;
        }
        buffer := bigger;
      }
      buffer[count] := w;
      count := count + 1;
    }

    /** The pass every fire and sweep makes: the survivors are written over the front of the
        same array while it is still being read. */
    method Resolve(decide: T -> Option<R>)
      requires Valid()
      modifies this`count, this`results, buffer
      ensures Valid() && buffer == old(buffer)
      ensures Contents() == After(old(Contents()), Resolves(decide))
    {
      ghost var before := buffer[..count];
      var kept, i := 0, 0;
      assert before[..0] == [];
      while i < count
        invariant 0 <= kept <= i <= count == old(count) <= buffer.Length && buffer == old(buffer)
        invariant forall j :: i <= j < count ==> buffer[j] == before[j]
        invariant buffer[..kept] == Kept(before[..i], decide)
        invariant results == old(results) + Sent(before[..i], decide)
      {
        var w := buffer[i];
        assert w == before[i];
        assert before[..i + 1][..i] == before[..i];
        match decide(w) {
          case None =>
            ghost var front := buffer[..kept];
            buffer[kept] := w;
            kept := kept + 1;
            assert buffer[..kept] == front + [w];
          case Some(r) =>
            results := results + [(w, r)];
        }
        i := i + 1;
      }
      assert before[..i] == before;
      count := kept;
    }

    /** failAll: everyone gets the same answer and the list is emptied. */
    method FailAll(r: R)
      requires Valid()
      modifies this`count, this`results
      ensures Valid() && buffer == old(buffer)
      ensures Contents() == After(old(Contents()), FailsAll(r))
    {
      ghost var before := buffer[..count];
      var i := 0;
      assert before[..0] == [];
      while i < count
        invariant 0 <= i <= count && buffer == old(buffer) && count == old(count) && buffer[..count] == before
        invariant results == old(results) + Sent(before[..i], _ => Some(r))
      {
        assert before[..i + 1][..i] == before[..i];
        results := results + [(buffer[i], r)];
        i := i + 1;
      }
      assert before[..i] == before;
      count := 0;
    }
  }

  // ---- Any sequence of operations ----

  function Play<T, R>(ops: seq<Op<T, R>>): Book<T, R> {
    if ops == [] then Book([], []) else After(Play(ops[..|ops| - 1]), ops[|ops| - 1])
  }

  function Registered<T, R>(ops: seq<Op<T, R>>): seq<T> {
    if ops == [] then []
    else
      var before := Registered(ops[..|ops| - 1]);
      match ops[|ops| - 1] {
        case Registers(w) => before + [w]
        case Resolves(_) => before
        case FailsAll(_) => before
      }
  }

  lemma {:induction false} FailAllKeepsNobody<T, R>(xs: seq<T>, r: R)
    ensures Kept(xs, _ => Some(r)) == []
  {
    if xs != [] {
      FailAllKeepsNobody(xs[..|xs| - 1], r);
    }
  }

  /** Over any sequence of registrations, passes and fail-alls: the clients still waiting together
      with the clients answered are exactly the clients registered. */
  lemma {:induction false} NoneLostNoneDuplicated<T, R>(ops: seq<Op<T, R>>)
    ensures var b := Play(ops); multiset(b.pending) + multiset(Recipients(b.results)) == multiset(Registered(ops))
  {
    if ops != [] {
      var short, op := ops[..|ops| - 1], ops[|ops| - 1];
      NoneLostNoneDuplicated(short);
      var b := Play(short);
      match op
      case Registers(w) =>
        assert multiset(b.pending + [w]) == multiset(b.pending) + multiset{w};
      case Resolves(decide) =>
        FilterConserves(b.pending, decide);
        RecipientsSplit(b.results, Sent(b.pending, decide));
      case FailsAll(r) =>
        var decide: T -> Option<R> := _ => Some(r);
        FilterConserves(b.pending, decide);
        FailAllKeepsNobody(b.pending, r);
        RecipientsSplit(b.results, Sent(b.pending, decide));
    }
  }

  /** A client registered once has exactly one result, or is waiting and has none. */
  lemma ExactlyOneResult<T, R>(ops: seq<Op<T, R>>, w: T)
    requires multiset(Registered(ops))[w] == 1
    ensures var b := Play(ops);
            var answers := multiset(Recipients(b.results))[w];
            (w in b.pending && answers == 0) || (w !in b.pending && answers == 1)
  {
    NoneLostNoneDuplicated(ops);
    var b := Play(ops);
    assert multiset(b.pending)[w] + multiset(Recipients(b.results))[w] == 1;
    assert w in b.pending <==> multiset(b.pending)[w] > 0;
  }

  // ---- The engine's decisions ----

  datatype Error = NotLeader | CommitTimeout | ReadTimeout

  datatype Result = Nil | Fail(error: Error)

  /** A pending write: what it waits for, and until when. `ticket` is its result channel. */
  datatype Write = Write(waiter: Waiter, deadline: int, ticket: int)

  function CommittedDecision(commitIndex: int, currentTerm: int): Write -> Option<Result> {
    (w: Write) =>
      if w.waiter.term != currentTerm then Some(Fail(NotLeader))
      else if w.waiter.index <= commitIndex then Some(Nil)
      else None
  }

  function ExpiredDecision(now: int): Write -> Option<Result> {
    (w: Write) => if now > w.deadline then Some(Fail(CommitTimeout)) else None
  }

  /** A pending apply wait of a follower read. */
  datatype ApplyWait = ApplyWait(index: int, deadline: int, ticket: int)

  function AppliedDecision(applied: int): ApplyWait -> Option<Result> {
    (w: ApplyWait) => if applied >= w.index then Some(Nil) else None
  }

  /** A pending read: the released index, or why it was refused. */
  datatype ReadResult = Index(index: int) | Refused(error: Error)

  function ReadDecision(n: Node): Read -> Option<ReadResult> {
    (read: Read) =>
      if n.raft.role != Leader || n.raft.Term() != read.term then Some(Refused(NotLeader))
      else if ReadSatisfied(n, read) then Some(Index(read.readIndex))
      else None
  }

  function WaitersOf(xs: seq<Write>): set<Waiter> {
    set w | w in xs :: w.waiter
  }

  function Acknowledged(sent: seq<(Write, Result)>): set<Waiter> {
    set p | p in sent && p.1 == Nil :: p.0.waiter
  }

  /** fireCommittedWaiters on the list is the tick of the cluster model: it answers nil to the
      waiters `Answered` names and keeps those `StillWaiting` names. */
  lemma FireIsTheTick(xs: seq<Write>, commitIndex: int, term: int)
    ensures WaitersOf(Kept(xs, CommittedDecision(commitIndex, term))) == StillWaiting(WaitersOf(xs), commitIndex, term)
    ensures Acknowledged(Sent(xs, CommittedDecision(commitIndex, term))) == Answered(WaitersOf(xs), commitIndex, term)
  {
    KeptAreStillWaiting(xs, commitIndex, term);
    NilsAreAnswered(xs, commitIndex, term);
  }

  lemma KeptAreStillWaiting(xs: seq<Write>, commitIndex: int, term: int)
    ensures WaitersOf(Kept(xs, CommittedDecision(commitIndex, term))) == StillWaiting(WaitersOf(xs), commitIndex, term)
  {
    var decide := CommittedDecision(commitIndex, term);
    FilterConserves(xs, decide);
    FilterMembers(xs, decide);
    hide Kept, Sent;
    forall w | w in StillWaiting(WaitersOf(xs), commitIndex, term)
      ensures w in WaitersOf(Kept(xs, decide))
    {
      var x :| x in xs && x.waiter == w;
      assert decide(x) == None;
    }
  }

  lemma NilsAreAnswered(xs: seq<Write>, commitIndex: int, term: int)
    ensures Acknowledged(Sent(xs, CommittedDecision(commitIndex, term))) == Answered(WaitersOf(xs), commitIndex, term)
  {
    var decide := CommittedDecision(commitIndex, term);
    FilterConserves(xs, decide);
    FilterMembers(xs, decide);
    hide Kept, Sent;
    forall w | w in Answered(WaitersOf(xs), commitIndex, term)
      ensures w in Acknowledged(Sent(xs, decide))
    {
      var x :| x in xs && x.waiter == w;
      assert decide(x) == Some(Nil);
      assert (x, Nil) in Sent(xs, decide);
    }
  }

  lemma {:induction false} FilterMembers<T, R>(xs: seq<T>, decide: T -> Option<R>)
    ensures forall w :: w in xs && decide(w) == None ==> w in Kept(xs, decide)
    ensures forall w :: w in Kept(xs, decide) ==> w in xs
    ensures forall w :: w in xs && decide(w).Some? ==> (w, decide(w).value) in Sent(xs, decide)
    ensures forall p :: p in Sent(xs, decide) ==> p.0 in xs
  {
    if xs != [] {
      FilterMembers(xs[..|xs| - 1], decide);
      assert xs == xs[..|xs| - 1] + [xs[|xs| - 1]];
    }
  }

  /** fireReadWaiters releases exactly the reads the cluster would release, with their own index,
      and keeps exactly those its leader may still confirm. */
  lemma FireReadsExactly(xs: seq<Read>, n: Node, read: Read)
    requires read in xs
    ensures (read, Index(read.readIndex)) in Sent(xs, ReadDecision(n)) <==> ReadSatisfied(n, read)
    ensures read in Kept(xs, ReadDecision(n))
            <==> n.raft.role == Leader && n.raft.Term() == read.term && !ReadSatisfied(n, read)
    ensures (read, Refused(NotLeader)) in Sent(xs, ReadDecision(n))
            <==> n.raft.role != Leader || n.raft.Term() != read.term
  {
    FilterConserves(xs, ReadDecision(n));
    FilterMembers(xs, ReadDecision(n));
    assert ReadDecision(n)(read).Some? ==> (read, ReadDecision(n)(read).value) in Sent(xs, ReadDecision(n));
  }

  /** A write is answered nil exactly when its entry is committed in the term it was made in, refused
      exactly when that term is over, and kept otherwise. */
  lemma FireWritesExactly(xs: seq<Write>, commitIndex: int, term: int, w: Write)
    requires w in xs
    ensures (w, Nil) in Sent(xs, CommittedDecision(commitIndex, term))
            <==> w.waiter.term == term && w.waiter.index <= commitIndex
    ensures (w, Fail(NotLeader)) in Sent(xs, CommittedDecision(commitIndex, term)) <==> w.waiter.term != term
    ensures w in Kept(xs, CommittedDecision(commitIndex, term))
            <==> w.waiter.term == term && w.waiter.index > commitIndex
  {
    var decide := CommittedDecision(commitIndex, term);
    FilterConserves(xs, decide);
    FilterMembers(xs, decide);
    assert decide(w).Some? ==> (w, decide(w).value) in Sent(xs, decide);
  }

  /** Sweeping fails exactly the writes past their deadline; applying releases exactly the waits it reached. */
  lemma SweepsExactly(xs: seq<Write>, now: int, w: Write, ys: seq<ApplyWait>, applied: int, y: ApplyWait)
    requires w in xs && y in ys
    ensures w in Kept(xs, ExpiredDecision(now)) <==> now <= w.deadline
    ensures (w, Fail(CommitTimeout)) in Sent(xs, ExpiredDecision(now)) <==> now > w.deadline
    ensures y in Kept(ys, AppliedDecision(applied)) <==> applied < y.index
    ensures (y, Nil) in Sent(ys, AppliedDecision(applied)) <==> applied >= y.index
  {
    FilterConserves(xs, ExpiredDecision(now));
    FilterMembers(xs, ExpiredDecision(now));
    FilterConserves(ys, AppliedDecision(applied));
    FilterMembers(ys, AppliedDecision(applied));
    assert now > w.deadline ==> (w, ExpiredDecision(now)(w).value) in Sent(xs, ExpiredDecision(now));
    assert applied >= y.index ==> (y, AppliedDecision(applied)(y).value) in Sent(ys, AppliedDecision(applied));
  }

  /** Those of `ids` whose acknowledged round lies past the barrier. */
  ghost function Past(ids: set<int>, lastAck: map<int, int>, barrier: int): set<int>
    requires ids <= lastAck.Keys
  {
    set p | p in ids && lastAck[p] > barrier
  }

  lemma PastOneMore(ids: set<int>, id: int, lastAck: map<int, int>, barrier: int)
    requires ids <= lastAck.Keys && id in lastAck && id !in ids
    ensures |Past(ids + {id}, lastAck, barrier)| == |Past(ids, lastAck, barrier)|
                                                  + if lastAck[id] > barrier then 1 else 0
  {
    assert Past(ids + {id}, lastAck, barrier)
           == Past(ids, lastAck, barrier) + if lastAck[id] > barrier then {id} else {};
  }

  /** The counting loop of readSatisfied. */
  method CountConfirmed(lastAck: map<int, int>, barrier: int) returns (confirmed: nat)
    ensures confirmed == 1 + |Confirming(lastAck, barrier)|
  {
    confirmed := 1;
    var rest := lastAck.Keys;
    ghost var done: set<int> := {};
    assert Past({}, lastAck, barrier) == {};
    while rest != {}
      invariant done !! rest && done + rest == lastAck.Keys
      invariant confirmed == 1 + |Past(done, lastAck, barrier)|
      decreases rest
    {
      ghost var _ := Pick(rest);
      var id :| id in rest;
      if lastAck[id] > barrier {
        confirmed := confirmed + 1;
      }
      PastOneMore(done, id, lastAck, barrier);
      done, rest := done + {id}, rest - {id};
    }
    assert done == lastAck.Keys;
    assert Past(done, lastAck, barrier) == Confirming(lastAck, barrier);
  }

  /** readSatisfied. */
  method CheckRead(read: Read, role: Role, term: int, commitIndex: int, lastApplied: int, noopIndex: int,
                   lastAck: map<int, int>, clusterSize: nat)
    returns (satisfied: bool)
    ensures satisfied <==> && role == Leader && term == read.term && noopIndex <= commitIndex
                           && (read.awaitApply ==> lastApplied >= read.readIndex)
                           && 2 * (1 + |Confirming(lastAck, read.barrier)|) > clusterSize
  {
    if role != Leader || term != read.term {
      return false;
    }
    if noopIndex > commitIndex {
      return false;
    }
    if read.awaitApply && lastApplied < read.readIndex {
      return false;
    }
    var confirmed := CountConfirmed(lastAck, read.barrier);
    return confirmed > clusterSize / 2;
  }
}
