/** readSatisfied confirms a read by counting heads against len(Voters) (internal/engine/quorum.go).
    This module says for which configurations, simple or joint, that count is the quorum rule. */
module HeadCount {
  import opened Sets
  import opened Membership

  /** The count passes with acknowledgements from these peers. */
  predicate Counted(c: Configuration, acks: set<int>) {
    1 + |acks| > |c.voters| / 2
  }

  /** The fewest of `members` that `heads` servers of `all` can include, when i is one of the heads:
      the acknowledgements come from outside the membership as long as there is anyone there. */
  function FewestAmong(members: set<int>, all: set<int>, i: int, heads: int): int {
    var outside := |all - members - {i}|;
    (if i in members then 1 else 0) + if heads - 1 > outside then heads - 1 - outside else 0
  }

  /** However the count passes, it contains a majority of this membership. */
  predicate Guards(members: set<int>, all: set<int>, i: int, heads: int) {
    FewestAmong(members, all, i, heads) > |members| / 2
  }

  /** The count by leader i can be trusted under this configuration. */
  predicate HeadsSuffice(c: Configuration, i: int) {
    var all, heads := c.All().Keys, |c.voters| / 2 + 1;
    Guards(c.voters.Keys, all, i, heads) && (c.IsJoint() ==> Guards(c.oldVoters.Keys, all, i, heads))
  }

  lemma SplitSize(s: set<int>, part: set<int>)
    ensures |s| == |s * part| + |s - part|
  {
    assert s == s * part + (s - part);
  }

  lemma HeadsIn(members: set<int>, i: int, acks: set<int>)
    requires i !in acks
    ensures |members * ({i} + acks)| == |acks * members| + if i in members then 1 else 0
  {
    if i in members {
      assert members * ({i} + acks) == acks * members + {i};
    } else {
      assert members * ({i} + acks) == acks * members;
    }
  }

  /** No passing count includes fewer. */
  lemma NeverFewer(members: set<int>, all: set<int>, i: int, heads: int, acks: set<int>)
    requires acks <= all - {i} && 1 + |acks| >= heads
    ensures |members * ({i} + acks)| >= FewestAmong(members, all, i, heads)
  {
    HeadsIn(members, i, acks);
    SplitSize(acks, members);
    SubsetSize(acks - members, all - members - {i});
  }

  lemma EveryoneOutside(members: set<int>, outside: set<int>, some: set<int>)
    requires outside !! members && some <= members
    ensures (outside + some) * members == some && |outside + some| == |outside| + |some|
  {
  }

  lemma InsideSize(members: set<int>, all: set<int>, i: int)
    requires i in all && members <= all
    ensures |all| - 1 == |all - members - {i}| + |members - {i}|
  {
    assert (all - {i}) * members == members - {i} && all - {i} - members == all - members - {i};
    SplitSize(all - {i}, members);
  }

  /** Some passing count includes exactly that few. */
  lemma SometimesThatFew(members: set<int>, all: set<int>, i: int, heads: int) returns (acks: set<int>)
    requires i in all && members <= all && 1 <= heads <= |all|
    ensures acks <= all - {i} && 1 + |acks| >= heads
    ensures |members * ({i} + acks)| == FewestAmong(members, all, i, heads)
  {
    var outside := all - members - {i};
    if heads - 1 <= |outside| {
      acks := SubsetOfSize(outside, heads - 1);
      assert acks * members == {};
    } else {
      InsideSize(members, all, i);
      var some := SubsetOfSize(members - {i}, heads - 1 - |outside|);
      acks := outside + some;
      EveryoneOutside(members, outside, some);
    }
    HeadsIn(members, i, acks);
  }

  lemma MembersOf(c: Configuration, i: int)
    ensures c.voters.Keys <= c.All().Keys && c.oldVoters.Keys <= c.All().Keys && c.Peers(i).Keys == c.All().Keys - {i}
    ensures |c.voters.Keys| == |c.voters| <= |c.All().Keys| && (c.voters != map[] ==> |c.voters| >= 1)
    ensures c.IsJoint() ==> c.oldVoters.Keys != {}
  {
    SubsetSize(c.voters.Keys, c.All().Keys);
    assert c.oldVoters.Keys == {} ==> c.oldVoters == map[];
  }

  lemma GuardedMajority(members: set<int>, all: set<int>, i: int, heads: int, acks: set<int>)
    requires Guards(members, all, i, heads) && acks <= all - {i} && 1 + |acks| >= heads
    ensures HasMajority(members, {i} + acks)
  {
    NeverFewer(members, all, i, heads, acks);
  }

  /** Where the configuration allows it, the count is the quorum rule. */
  lemma CountIsQuorum(c: Configuration, i: int, acks: set<int>)
    requires c.voters != map[] && HeadsSuffice(c, i) && acks <= c.Peers(i).Keys
    ensures Counted(c, acks) <==> c.HasQuorum({i} + acks)
  {
    hide Configuration.All, Configuration.Peers, Guards;
    MembersOf(c, i);
    var all, heads := c.All().Keys, |c.voters| / 2 + 1;
    if Counted(c, acks) {
      GuardedMajority(c.voters.Keys, all, i, heads, acks);
      if c.IsJoint() {
        GuardedMajority(c.oldVoters.Keys, all, i, heads, acks);
      }
    } else {
      SubsetSize(c.voters.Keys * ({i} + acks), {i} + acks);
      assert |{i} + acks| == 1 + |acks|;
    }
  }

  /** A count that passes without a majority of this membership. */
  lemma Unguarded(c: Configuration, members: set<int>, i: int) returns (acks: set<int>)
    requires c.voters != map[] && i in c.All() && members != {} && members <= c.All().Keys
    requires !Guards(members, c.All().Keys, i, |c.voters| / 2 + 1)
    ensures acks <= c.Peers(i).Keys && Counted(c, acks) && !HasMajority(members, {i} + acks)
  {
    hide Configuration.All, Configuration.Peers;
    MembersOf(c, i);
    acks := SometimesThatFew(members, c.All().Keys, i, |c.voters| / 2 + 1);
  }

  ghost predicate NeverMiscounts(c: Configuration, i: int) {
    forall acks: set<int> {:trigger Counted(c, acks)} ::
      acks <= c.Peers(i).Keys && Counted(c, acks) ==> c.HasQuorum({i} + acks)
  }

  /** For every configuration, simple or joint, and every leader in it: the count never passes
      without a quorum exactly when the configuration says so. */
  lemma HeadCountExactlyWhen(c: Configuration, i: int)
    requires c.voters != map[] && i in c.All()
    ensures NeverMiscounts(c, i) <==> HeadsSuffice(c, i)
  {
    hide Configuration.All, Configuration.Peers, Guards, Counted;
    MembersOf(c, i);
    if HeadsSuffice(c, i) {
      hide HeadsSuffice, Configuration.HasQuorum;
      forall acks: set<int> | acks <= c.Peers(i).Keys && Counted(c, acks)
        ensures c.HasQuorum({i} + acks)
      {
        CountIsQuorum(c, i, acks);
      }
    } else {
      var voters := !Guards(c.voters.Keys, c.All().Keys, i, |c.voters| / 2 + 1);
      hide HasMajority;
      var acks := Unguarded(c, if voters then c.voters.Keys else c.oldVoters.Keys, i);
      assert !c.HasQuorum({i} + acks);
    }
  }

  lemma OutsideIsLearners(c: Configuration, i: int)
    requires c.Valid() && !c.IsJoint() && i in c.voters
    ensures c.All().Keys - c.voters.Keys - {i} == c.learners.Keys && (|c.learners.Keys| == 0 <==> c.learners == map[])
  {
    forall id
      ensures id in c.All().Keys - c.voters.Keys - {i} <==> id in c.learners.Keys
    {
      assert id in c.All() <==> id in c.oldVoters || id in c.voters || id in c.learners;
    }
    assert c.learners.Keys == {} ==> c.learners == map[];
  }

  lemma MiddleOnly(n: int, outside: nat)
    requires n >= 1
    ensures 1 + (if n / 2 > outside then n / 2 - outside else 0) > n / 2 <==> outside == 0 || n == 1
  {
  }

  lemma VoterSuffices(c: Configuration, i: int)
    requires c.voters != map[] && !c.IsJoint() && i in c.voters && c.All().Keys - c.voters.Keys - {i} == c.learners.Keys
    ensures HeadsSuffice(c, i) <==> |c.learners.Keys| == 0 || |c.voters| == 1
  {
    MembersOf(c, i);
    hide Configuration.All;
    MiddleOnly(|c.voters|, |c.learners.Keys|);
  }

  lemma OutsiderNeverSuffices(c: Configuration, i: int)
    requires i !in c.voters
    ensures !HeadsSuffice(c, i)
  {
    hide Configuration.All;
    MembersOf(c, i);
  }

  /** Outside a transition: the leader votes, and nobody without a vote can be heard, or its own
      vote is the only one. */
  lemma SimpleHeadsSuffice(c: Configuration, i: int)
    requires c.Valid() && !c.IsJoint() && i in c.All()
    ensures HeadsSuffice(c, i) <==> i in c.voters && (c.learners == map[] || |c.voters| == 1)
  {
    hide HeadsSuffice, Configuration.All;
    if i in c.voters {
      OutsideIsLearners(c, i);
      VoterSuffices(c, i);
    } else {
      OutsiderNeverSuffices(c, i);
    }
  }

  lemma LearningMembers(c: Configuration)
    requires c == Configuration(map[1 := "a", 2 := "b", 3 := "c"], map[], map[4 := "d"])
    ensures c.Valid() && !c.IsJoint() && c.voters.Keys == {1, 2, 3} && |c.voters| == 3 && c.learners != map[]
  {
    assert c.voters.Keys == {1, 2, 3};
    assert 4 in c.learners;
  }

  /** With a learner acknowledging, the head count passes while the quorum rule does not. */
  lemma LearnersMiscount(c: Configuration)
    requires c == Configuration(map[1 := "a", 2 := "b", 3 := "c"], map[], map[4 := "d"])
    ensures c.Valid() && !HeadsSuffice(c, 1)
    ensures {4} <= c.Peers(1).Keys && Counted(c, {4}) && !c.HasQuorum({1} + {4})
  {
    assert 1 in c.All() && 4 in c.Peers(1);
    hide HeadsSuffice, Configuration.All, Configuration.Peers, Configuration.Valid, Configuration.IsJoint;
    LearningMembers(c);
    assert {1, 2, 3} * ({1} + {4}) == {1};
    SimpleHeadsSuffice(c, 1);
  }

  lemma ShrinkingMembers(d: Configuration)
    requires d == Configuration(map[1 := "a"], map[1 := "a", 2 := "b", 3 := "c"], map[])
    ensures d.Valid() && d.IsJoint() && |d.voters| == 1 && d.oldVoters.Keys == {1, 2, 3} && |d.oldVoters.Keys| == 3
  {
    assert d.voters.Keys == {1} && |d.voters.Keys| == 1;
    assert d.oldVoters.Keys == {1, 2, 3};
    assert 1 in d.oldVoters;
  }

  /** During a transition the count ignores the outgoing membership: on the way from three servers
      to one, the remaining server confirms its reads all by itself. */
  lemma TransitionMiscounts(d: Configuration)
    requires d == Configuration(map[1 := "a"], map[1 := "a", 2 := "b", 3 := "c"], map[])
    ensures d.Valid() && !HeadsSuffice(d, 1)
    ensures Counted(d, {}) && !d.HasQuorum({1} + {})
  {
    hide HeadsSuffice, Configuration.All, Configuration.Peers, Configuration.Valid, Configuration.IsJoint;
    ShrinkingMembers(d);
    assert {1, 2, 3} * ({1} + {}) == {1};
    if HeadsSuffice(d, 1) {
      CountIsQuorum(d, 1, {});
    }
  }
}
