/** Cluster membership and every quorum decision made against it
    (internal/raft/configuration.go). */
module Membership {
  import opened Sets

  type Members = map<int, string>

  /** `oldVoters` is non-empty only during a joint transition. */
  datatype Configuration = Configuration(voters: Members, oldVoters: Members, learners: Members) {

    predicate IsJoint() {
      oldVoters != map[]
    }

    predicate IsVoter(id: int) {
      id in voters || id in oldVoters
    }

    /** Every server the leader replicates to. */
    function All(): Members {
      oldVoters + voters + learners
    }

    function Peers(self: int): Members {
      All() - {self}
    }

    /** Agreement: a majority of both memberships while joint. */
    predicate HasQuorum(have: set<int>) {
      HasMajority(voters.Keys, have) && (IsJoint() ==> HasMajority(oldVoters.Keys, have))
    }

    function EnterJoint(target: Members, newLearners: Members): Configuration {
      Configuration(target, voters, newLearners - target.Keys)
    }

    function LeaveJoint(): Configuration {
      Configuration(voters, map[], learners)
    }

    /** What Validate accepts. */
    predicate Valid() {
      && voters != map[]
      && (forall id :: id in voters ==> id > 0 && voters[id] != "")
      && (forall id :: id in learners ==> id !in voters)
    }
  }

  predicate HasMajority(members: set<int>, have: set<int>) {
    members == {} || |members * have| > |members| / 2
  }

  // ---- Counting ----

  method CountMajority(members: Members, have: set<int>) returns (agreed: bool)
    ensures agreed == HasMajority(members.Keys, have)
  {
    if |members| == 0 {
      assert members.Keys == {};
      return true;
    }
    var count := 0;
    var rest: set<int> := members.Keys;
    ghost var done: set<int> := {};
    while rest != {}
      invariant done !! rest && done + rest == members.Keys
      invariant count == |done * have|
      decreases rest
    {
      ghost var _ := Pick(rest);
      var id :| id in rest;
      if id in have {
        count := count + 1;
      }
      assert (done + {id}) * have == done * have + ({id} * have);
      assert id in have ==> {id} * have == {id};
      done, rest := done + {id}, rest - {id};
    }
    assert done == members.Keys;
    agreed := count > |members| / 2;
  }

  method ComputeHasQuorum(c: Configuration, have: set<int>) returns (agreed: bool)
    ensures agreed == c.HasQuorum(have)
  {
    var current := CountMajority(c.voters, have);
    if !current {
      return false;
    }
    if c.IsJoint() {
      var prior := CountMajority(c.oldVoters, have);
      if !prior {
        return false;
      }
    }
    return true;
  }

  // ---- The quorum frontier ----

  /** A Go map read: an absent key yields zero. */
  function MatchOf(matchIndex: map<int, int>, id: int): int {
    if id in matchIndex then matchIndex[id] else 0
  }

  /** The members known to hold everything up to n. */
  function Holding(members: set<int>, matchIndex: map<int, int>, n: int): set<int> {
    set id | id in members && MatchOf(matchIndex, id) >= n
  }

  /** q is exactly the frontier: a majority holds n if and only if n is at most q. */
  ghost predicate IsFrontier(members: set<int>, matchIndex: map<int, int>, q: int) {
    forall n: int {:trigger Holding(members, matchIndex, n)} ::
      HasMajority(members, Holding(members, matchIndex, n)) <==> n <= q
  }

  /** Values listed in descending order, each naming the member it came from. */
  ghost predicate Ranked(ids: seq<int>, values: seq<int>, matchIndex: map<int, int>) {
    && |ids| == |values|
    && (forall i :: 0 <= i < |ids| ==> values[i] == MatchOf(matchIndex, ids[i]))
    && (forall i, j :: 0 <= i < j < |ids| ==> ids[i] != ids[j])
  }

  ghost predicate Descending(values: seq<int>) {
    forall i, j :: 0 <= i < j < |values| ==> values[i] >= values[j]
  }

  /** Insertion into a descending sequence; the ghost list of owners moves along. */
  method InsertDescending(values: seq<int>, x: int, ghost ids: seq<int>, ghost id: int, ghost matchIndex: map<int, int>)
    returns (r: seq<int>, ghost rids: seq<int>)
    requires Ranked(ids, values, matchIndex) && Descending(values)
    requires x == MatchOf(matchIndex, id) && id !in ids
    ensures Ranked(rids, r, matchIndex) && Descending(r)
    ensures forall k :: k in rids <==> k == id || k in ids
    ensures |r| == |values| + 1
  {
    var at := 0;
    while at < |values| && values[at] >= x
      invariant 0 <= at <= |values|
      invariant forall i :: 0 <= i < at ==> values[i] >= x
    {
      at := at + 1;
    }
    r := values[..at] + [x] + values[at..];
    rids := ids[..at] + [id] + ids[at..];
    InsertedKeys(ids, id, at);
    InsertedOrder(values, x, at);
  }

  lemma InsertedKeys(ids: seq<int>, id: int, at: nat)
    requires at <= |ids| && id !in ids && (forall i, j :: 0 <= i < j < |ids| ==> ids[i] != ids[j])
    ensures var rids := ids[..at] + [id] + ids[at..];
            && (forall k :: k in rids <==> k == id || k in ids)
            && (forall i, j :: 0 <= i < j < |rids| ==> rids[i] != rids[j])
  {
    assert forall k :: k in ids ==> k in ids[..at] || k in ids[at..];
  }

  lemma InsertedOrder(values: seq<int>, x: int, at: nat)
    requires at <= |values| && Descending(values) && (forall i :: 0 <= i < at ==> values[i] >= x)
             && (at < |values| ==> values[at] < x)
    ensures Descending(values[..at] + [x] + values[at..])
  {
    assert forall i :: at <= i < |values| ==> values[i] <= values[at];
  }

  /** sort.Sort(sort.Reverse(...)). */
  method SortDescending(values: seq<int>, ghost ids: seq<int>, ghost matchIndex: map<int, int>)
    returns (r: seq<int>, ghost rids: seq<int>)
    requires Ranked(ids, values, matchIndex)
    ensures Ranked(rids, r, matchIndex) && Descending(r)
    ensures forall k :: k in rids <==> k in ids
    ensures |r| == |values|
  {
    r, rids := [], [];
    var i := 0;
    while i < |values|
      invariant 0 <= i <= |values| && |r| == i
      invariant Ranked(rids, r, matchIndex) && Descending(r)
      invariant forall k :: k in rids <==> k in ids[..i]
    {
      assert ids[..i + 1] == ids[..i] + [ids[i]];
      r, rids := InsertDescending(r, values[i], rids, ids[i], matchIndex);
      i := i + 1;
    }
    assert ids[..i] == ids;
  }

  /** The middle of a descending ranking is the frontier. */
  lemma MiddleIsFrontier(ids: seq<int>, values: seq<int>, members: set<int>, matchIndex: map<int, int>)
    requires Ranked(ids, values, matchIndex) && Descending(values)
    requires members != {} && (forall k :: k in members <==> k in ids)
    ensures |members| == |ids| > 0
    ensures IsFrontier(members, matchIndex, values[|ids| / 2])
  {
    assert forall k :: k in members <==> k in ids;
    DistinctSize(ids, members);
    var half := |ids| / 2;
    forall n: int
      ensures HasMajority(members, Holding(members, matchIndex, n)) <==> n <= values[half]
    {
      var have := Holding(members, matchIndex, n);
      assert members * have == have;
      if n <= values[half] {
        var top := set i | 0 <= i <= half :: ids[i];
        DistinctSize(ids[..half + 1], top);
        SubsetSize(top, have);
      } else {
        var top := set i | 0 <= i < half :: ids[i];
        DistinctSize(ids[..half], top);
        forall id | id in have
          ensures id in top
        {
          var i :| 0 <= i < |ids| && ids[i] == id;
          assert values[i] > values[half];
        }
        SubsetSize(have, top);
      }
    }
  }

  method MajorityIndex(members: Members, matchIndex: map<int, int>) returns (q: int)
    ensures members == map[] ==> q == 0
    ensures members != map[] ==> IsFrontier(members.Keys, matchIndex, q)
  {
    if |members| == 0 {
      return 0;
    }
    assert members.Keys != {};
    var indices: seq<int> := [];
    ghost var ids: seq<int> := [];
    var rest: set<int> := members.Keys;
    while rest != {}
      invariant rest <= members.Keys
      invariant Ranked(ids, indices, matchIndex)
      invariant forall k :: k in ids <==> k in members.Keys - rest
      decreases rest
    {
      ghost var _ := Pick(rest);
      var id :| id in rest;
      assert id !in ids;
      indices := indices + [MatchOf(matchIndex, id)];
      ids := ids + [id];
      rest := rest - {id};
    }
    indices, ids := SortDescending(indices, ids, matchIndex);
    MiddleIsFrontier(ids, indices, members.Keys, matchIndex);
    q := indices[|indices| / 2];
  }

  /** The index QuorumIndex must return: the greatest n replicated on a quorum. */
  ghost predicate IsQuorumIndex(c: Configuration, matchIndex: map<int, int>, q: int) {
    forall n: int {:trigger Holding(c.All().Keys, matchIndex, n)} ::
      c.HasQuorum(Holding(c.All().Keys, matchIndex, n)) <==> n <= q
  }

  /** A member set's majority is indifferent to servers outside it, learners included. */
  lemma OutsidersNeverMatter(members: set<int>, all: set<int>, matchIndex: map<int, int>, n: int)
    requires members <= all
    ensures HasMajority(members, Holding(all, matchIndex, n)) == HasMajority(members, Holding(members, matchIndex, n))
  {
    assert members * Holding(all, matchIndex, n) == members * Holding(members, matchIndex, n);
  }

  lemma FrontiersCombine(c: Configuration, matchIndex: map<int, int>, current: int, prior: int)
    requires c.voters != map[] && IsFrontier(c.voters.Keys, matchIndex, current)
    requires c.IsJoint() ==> IsFrontier(c.oldVoters.Keys, matchIndex, prior)
    ensures IsQuorumIndex(c, matchIndex, if c.IsJoint() && prior < current then prior else current)
  {
    var all := c.All().Keys;
    forall n: int
      ensures c.HasQuorum(Holding(all, matchIndex, n))
              <==> n <= (if c.IsJoint() && prior < current then prior else current)
    {
      OutsidersNeverMatter(c.voters.Keys, all, matchIndex, n);
      OutsidersNeverMatter(c.oldVoters.Keys, all, matchIndex, n);
      assert HasMajority(c.voters.Keys, Holding(c.voters.Keys, matchIndex, n)) <==> n <= current;
      if c.IsJoint() {
        assert HasMajority(c.oldVoters.Keys, Holding(c.oldVoters.Keys, matchIndex, n)) <==> n <= prior;
      }
    }
  }

  method QuorumIndex(c: Configuration, matchIndex: map<int, int>) returns (q: int)
    ensures c.voters != map[] ==> IsQuorumIndex(c, matchIndex, q)
    ensures c.voters == map[] ==> q <= 0
  {
    q := MajorityIndex(c.voters, matchIndex);
    ghost var current := q;
    if !c.IsJoint() {
      if c.voters != map[] {
        FrontiersCombine(c, matchIndex, current, current);
      }
      return;
    }
    var prior := MajorityIndex(c.oldVoters, matchIndex);
    if c.voters != map[] {
      FrontiersCombine(c, matchIndex, current, prior);
    }
    if prior < q {
      q := prior;
    }
  }

  lemma QuorumIndexUnique(c: Configuration, matchIndex: map<int, int>, q1: int, q2: int)
    requires IsQuorumIndex(c, matchIndex, q1) && IsQuorumIndex(c, matchIndex, q2)
    ensures q1 == q2
  {
    assert c.HasQuorum(Holding(c.All().Keys, matchIndex, q1));
    assert c.HasQuorum(Holding(c.All().Keys, matchIndex, q2));
  }

  // ---- The frontier as a value ----

  lemma HoldingShrinks(members: set<int>, matchIndex: map<int, int>, lo: int, hi: int)
    requires lo <= hi && HasMajority(members, Holding(members, matchIndex, hi))
    ensures HasMajority(members, Holding(members, matchIndex, lo))
  {
    SubsetSize(members * Holding(members, matchIndex, hi), members * Holding(members, matchIndex, lo));
  }

  lemma {:induction false} FrontierBetween(members: set<int>, matchIndex: map<int, int>, lo: int, hi: int)
    returns (q: int)
    requires lo < hi
    requires HasMajority(members, Holding(members, matchIndex, lo))
    requires !HasMajority(members, Holding(members, matchIndex, hi))
    ensures IsFrontier(members, matchIndex, q)
    decreases hi - lo
  {
    if lo + 1 == hi {
      q := lo;
      forall n: int
        ensures HasMajority(members, Holding(members, matchIndex, n)) <==> n <= q
      {
        if n <= lo {
          HoldingShrinks(members, matchIndex, n, lo);
        } else if HasMajority(members, Holding(members, matchIndex, n)) {
          HoldingShrinks(members, matchIndex, hi, n);
        }
      }
    } else if HasMajority(members, Holding(members, matchIndex, lo + 1)) {
      q := FrontierBetween(members, matchIndex, lo + 1, hi);
    } else {
      q := FrontierBetween(members, matchIndex, lo, lo + 1);
    }
  }

  lemma {:induction false} MatchBound(members: set<int>, matchIndex: map<int, int>) returns (b: int)
    ensures b >= 0 && forall id :: id in members ==> -b <= MatchOf(matchIndex, id) <= b
    decreases members
  {
    if members == {} {
      b := 0;
    } else {
      var id := Pick(members);
      b := MatchBound(members - {id}, matchIndex);
      var v := MatchOf(matchIndex, id);
      b := b + (if v < 0 then -v else v);
    }
  }

  lemma FrontierExists(members: set<int>, matchIndex: map<int, int>) returns (q: int)
    requires members != {}
    ensures IsFrontier(members, matchIndex, q)
  {
    var b := MatchBound(members, matchIndex);
    assert Holding(members, matchIndex, -b) == members && members * members == members;
    assert Holding(members, matchIndex, b + 1) == {} && members * {} == {};
    q := FrontierBetween(members, matchIndex, -b, b + 1);
  }

  lemma QuorumIndexExists(c: Configuration, matchIndex: map<int, int>)
    requires c.voters != map[]
    ensures exists q :: IsQuorumIndex(c, matchIndex, q)
  {
    assert c.voters.Keys != {} && (c.IsJoint() ==> c.oldVoters.Keys != {}) by {
      assert c.voters.Keys == {} ==> c.voters == map[];
      assert c.oldVoters.Keys == {} ==> c.oldVoters == map[];
    }
    var current := FrontierExists(c.voters.Keys, matchIndex);
    var prior := current;
    if c.IsJoint() {
      prior := FrontierExists(c.oldVoters.Keys, matchIndex);
    }
    FrontiersCombine(c, matchIndex, current, prior);
  }

  /** The value QuorumIndex computes. */
  ghost function Frontier(c: Configuration, matchIndex: map<int, int>): (q: int)
    requires c.voters != map[]
    ensures IsQuorumIndex(c, matchIndex, q)
  {
    QuorumIndexExists(c, matchIndex);
    var q :| IsQuorumIndex(c, matchIndex, q);
    q
  }

  // ---- Overlap ----

  lemma MajoritiesMeet(members: set<int>, a: set<int>, b: set<int>)
    requires members != {} && HasMajority(members, a) && HasMajority(members, b)
    ensures exists v :: v in members && v in a && v in b
  {
    var x, y := members * a, members * b;
    SubsetSize(x + y, members);
    assert |x + y| + |x * y| == |x| + |y|;
    var v := Pick(x * y);
  }

  /** Every agreement of one configuration shares a voter with every agreement of the other. */
  ghost predicate QuorumsMeet(c: Configuration, d: Configuration) {
    forall p, q :: c.HasQuorum(p) && d.HasQuorum(q) ==>
      exists v :: v in p && v in q && c.IsVoter(v) && d.IsVoter(v)
  }

  /** Two agreements of one configuration meet, exactly when anyone at all has a vote. */
  lemma OneConfigurationMeets(c: Configuration)
    ensures QuorumsMeet(c, c) <==> (exists v :: c.IsVoter(v))
  {
    if c.voters != map[] || c.oldVoters != map[] {
      var m := if c.voters != map[] then c.voters.Keys else c.oldVoters.Keys;
      assert m != {} by {
        assert c.voters.Keys == {} ==> c.voters == map[];
        assert c.oldVoters.Keys == {} ==> c.oldVoters == map[];
      }
      var w := Pick(m);
      assert c.IsVoter(w);
      forall p, q | c.HasQuorum(p) && c.HasQuorum(q)
        ensures exists v :: v in p && v in q && c.IsVoter(v) && c.IsVoter(v)
      {
        MajoritiesMeet(m, p, q);
      }
    } else {
      assert c.HasQuorum({});
    }
  }

  /** Entering the transition: old agreements and joint agreements meet among the old voters. */
  lemma EnteringMeets(c: Configuration, target: Members, learners: Members)
    requires c.voters != map[]
    ensures QuorumsMeet(c, c.EnterJoint(target, learners))
  {
    var d := c.EnterJoint(target, learners);
    forall p, q | c.HasQuorum(p) && d.HasQuorum(q)
      ensures exists v :: v in p && v in q && c.IsVoter(v) && d.IsVoter(v)
    {
      MajoritiesMeet(c.voters.Keys, p, q);
    }
  }

  /** Leaving it: joint and new agreements meet, exactly when the target has a voter. */
  lemma LeavingMeets(c: Configuration, target: Members, learners: Members)
    requires c.voters != map[]
    ensures QuorumsMeet(c.EnterJoint(target, learners), c.EnterJoint(target, learners).LeaveJoint())
            <==> target != map[]
  {
    var d := c.EnterJoint(target, learners);
    var e := d.LeaveJoint();
    if target != map[] {
      forall p, q | d.HasQuorum(p) && e.HasQuorum(q)
        ensures exists v :: v in p && v in q && d.IsVoter(v) && e.IsVoter(v)
      {
        MajoritiesMeet(target.Keys, p, q);
      }
    } else {
      assert c.voters.Keys * c.voters.Keys == c.voters.Keys;
      assert d.HasQuorum(c.voters.Keys) && e.HasQuorum({});
    }
  }

  /** Why the joint stage exists: switching directly lets two halves agree separately. */
  lemma DirectSwitchIsUnsafe(c: Configuration, d: Configuration)
    requires c == Configuration(map[1 := "a", 2 := "b", 3 := "c"], map[], map[])
    requires d == Configuration(map[3 := "c", 4 := "d", 5 := "e"], map[], map[])
    ensures c.Valid() && d.Valid() && !QuorumsMeet(c, d)
  {
    var p, q := {1, 2}, {4, 5};
    assert c.voters.Keys == {1, 2, 3} && d.voters.Keys == {3, 4, 5};
    assert c.voters.Keys * p == p && d.voters.Keys * q == q;
    assert c.HasQuorum(p) && d.HasQuorum(q);
    assert p !! q;
  }

  /** During a transition agreement takes a majority of the target and a majority of the voters before it,
      everybody of either counts as a member, and afterwards the target alone decides. */
  lemma TransitionAgreesExactlyWhen(c: Configuration, target: Members, learners: Members, have: set<int>, id: int)
    requires c.voters != map[]
    ensures var joint := c.EnterJoint(target, learners);
            var done := joint.LeaveJoint();
            && (joint.HasQuorum(have) <==> HasMajority(target.Keys, have) && HasMajority(c.voters.Keys, have))
            && (done.HasQuorum(have) <==> HasMajority(target.Keys, have))
            && (id in joint.All() <==> id in c.voters || id in target || id in learners)
            && (id in done.All() <==> id in target || id in learners)
            && (joint.IsVoter(id) <==> id in c.voters || id in target) && (done.IsVoter(id) <==> id in target)
  {
  }
}
