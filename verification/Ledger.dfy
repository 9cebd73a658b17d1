/** What a run has promised so far: who voted for whom with which log, which log each term's
    leader has had, who acknowledged what, what was committed. The ledger only grows, and the
    safety argument of section 5.4 of the Raft paper is made about it alone. */
module Ledger {
  import opened Membership
  import opened RaftLog
  import opened Consensus

  type Log = seq<LogEntry>

  /** A granted vote and the voter's log at that moment. A vote is early when its term had no leader yet. */
  datatype Vote = Vote(candidate: int, log: Log, early: bool)

  /** A leader's term: the log it was elected with and the log it has grown to. */
  datatype Reign = Reign(leader: int, electors: set<int>, init: Log, log: Log, rounds: int)

  type Reigns = map<int, Reign>
  type Votes = map<(int, int), Vote>      // by voter and term
  type Bids = map<(int, int), Log>        // candidate and term: the log it campaigned with
  type Acks = map<(int, int), int>        // follower and term: highest index acknowledged
  type Commits = map<(int, int), set<int>> // term and index: the quorum it was committed by

  /** Log matching in its strong form: an entry of term w at position p means the log is,
      up to p, the log of w's leader. */
  ghost predicate Grounded(reigns: Reigns, log: Log) {
    forall p :: 0 <= p < |log| ==> log[p].term in reigns && log[..p + 1] <= reigns[log[p].term].log
  }

  ghost predicate TermsBelow(log: Log, bound: int) {
    forall p :: 0 <= p < |log| ==> log[p].term < bound
  }

  predicate Sorted(log: Log) {
    forall p, q :: 0 <= p <= q < |log| ==> log[p].term <= log[q].term
  }

  /** The first k entries of the leader's log of term t. */
  function Stored(reigns: Reigns, t: int, k: int): Log {
    if t in reigns && 0 <= k <= |reigns[t].log| then reigns[t].log[..k] else []
  }

  ghost predicate ReignOk(c: Configuration, votes: Votes, bids: Bids, reigns: Reigns, t: int)
    requires t in reigns
  {
    var r := reigns[t];
    && t >= 1
    && r.init <= r.log && WellIndexed(r.log) && Grounded(reigns, r.log)
    && TermsBelow(r.init, t)
    && (forall p :: |r.init| <= p < |r.log| ==> r.log[p].term == t)
    && c.HasQuorum(r.electors)
    && (forall v :: v in r.electors ==> (v, t) in votes && votes[(v, t)].candidate == r.leader && votes[(v, t)].early)
    && (r.leader, t) in bids && bids[(r.leader, t)] == r.init
  }

  ghost predicate ReignsOk(c: Configuration, votes: Votes, bids: Bids, reigns: Reigns) {
    forall t :: t in reigns ==> ReignOk(c, votes, bids, reigns, t)
  }

  ghost predicate BidsOk(reigns: Reigns, bids: Bids) {
    forall x, t :: (x, t) in bids
        ==> t >= 1 && TermsBelow(bids[(x, t)], t) && Grounded(reigns, bids[(x, t)]) && WellIndexed(bids[(x, t)])
  }

  ghost predicate AtLeastAsGood(candidate: Log, voter: Log) {
    UpToDate(TermOf(candidate, |candidate|), |candidate|, TermOf(voter, |voter|), |voter|)
  }

  ghost predicate VotesOk(reigns: Reigns, bids: Bids, votes: Votes) {
    forall v, t :: (v, t) in votes ==>
      var b := votes[(v, t)];
      && (b.candidate, t) in bids && AtLeastAsGood(bids[(b.candidate, t)], b.log)
      && Grounded(reigns, b.log)
      && (t !in reigns ==> b.early)
  }

  ghost predicate AcksOk(reigns: Reigns, acks: Acks) {
    forall v, t :: (v, t) in acks ==> t in reigns && 0 <= acks[(v, t)] <= |reigns[t].log|
  }

  /** No leader strictly between the two terms was elected without the prefix. */
  ghost predicate Unbroken(reigns: Reigns, prefix: Log, lo: int, hi: int) {
    forall w :: w in reigns && lo < w < hi ==> prefix <= reigns[w].init
  }

  /** The log has the first k entries of term t's leader, unless some leader in between was
      elected without them. */
  ghost predicate Carries(reigns: Reigns, t: int, k: int, bound: int, log: Log) {
    Unbroken(reigns, Stored(reigns, t, k), t, bound) ==> Stored(reigns, t, k) <= log
  }

  /** A follower still had what it acknowledged when it later voted. */
  ghost predicate PromisesOk(reigns: Reigns, acks: Acks, votes: Votes) {
    forall v, t, u, k ::
      (v, t) in acks && (v, u) in votes && t < u && votes[(v, u)].early && 0 <= k <= acks[(v, t)]
      ==> Carries(reigns, t, k, u, votes[(v, u)].log)
  }

  ghost predicate CommitsOk(c: Configuration, reigns: Reigns, acks: Acks, commits: Commits) {
    forall t, n :: (t, n) in commits ==>
      && t in reigns && 1 <= n <= |reigns[t].log| && reigns[t].log[n - 1].term == t
      && c.HasQuorum(commits[(t, n)])
      && (forall v :: v in commits[(t, n)] ==> (v, t) in acks && acks[(v, t)] >= n)
  }

  ghost predicate LedgerOk(c: Configuration, votes: Votes, bids: Bids, reigns: Reigns, acks: Acks, commits: Commits) {
    && c.voters != map[]
    && ReignsOk(c, votes, bids, reigns) && BidsOk(reigns, bids) && VotesOk(reigns, bids, votes)
    && AcksOk(reigns, acks) && PromisesOk(reigns, acks, votes) && CommitsOk(c, reigns, acks, commits)
  }

  // ---- Log matching ----

  /** Two grounded logs that share an index and a term share everything up to it. */
  lemma LogMatching(reigns: Reigns, a: Log, b: Log, p: int)
    requires Grounded(reigns, a) && Grounded(reigns, b)
    requires 0 <= p < |a| && p < |b| && a[p].term == b[p].term
    ensures a[..p + 1] == b[..p + 1]
  {
    assert a[..p + 1] <= reigns[a[p].term].log && b[..p + 1] <= reigns[a[p].term].log;
  }

  lemma ReignTerms(c: Configuration, votes: Votes, bids: Bids, reigns: Reigns, t: int, p: int)
    requires t in reigns && ReignOk(c, votes, bids, reigns, t) && 0 <= p < |reigns[t].log|
    ensures reigns[t].log[p].term <= t
    ensures reigns[t].log[p].term == t <==> |reigns[t].init| <= p
  {
    if p < |reigns[t].init| {
      assert reigns[t].init[p] == reigns[t].log[p];
    }
  }

  /** Terms never decrease along a grounded log. */
  lemma GroundedSorted(c: Configuration, votes: Votes, bids: Bids, reigns: Reigns, log: Log)
    requires ReignsOk(c, votes, bids, reigns) && Grounded(reigns, log)
    ensures Sorted(log)
  {
    forall p, q | 0 <= p <= q < |log|
      ensures log[p].term <= log[q].term
    {
      var w := log[q].term;
      assert log[..q + 1][p] == reigns[w].log[p];
      ReignTerms(c, votes, bids, reigns, w, p);
    }
  }

  /** A grounded log is a prefix of the log of its last entry's term. */
  lemma WholeLogGrounded(reigns: Reigns, log: Log)
    requires Grounded(reigns, log) && log != []
    ensures TermOf(log, |log|) in reigns && log <= reigns[TermOf(log, |log|)].log
  {
    assert log[..|log|] == log;
    assert log[|log| - 1].term in reigns;
  }

  // ---- Leader completeness ----

  /** The crux of section 5.4.3: one voter stands in both quorums, and its log was not
      better than the new leader's. */
  lemma VoterCarriesPrefix(c: Configuration, votes: Votes, bids: Bids, reigns: Reigns, t: int, n: int, u: int,
                           voter: Log)
    requires ReignsOk(c, votes, bids, reigns) && BidsOk(reigns, bids)
    requires t in reigns && 1 <= n <= |reigns[t].log| && reigns[t].log[n - 1].term == t
    requires u in reigns && t < u && Unbroken(reigns, Stored(reigns, t, n), t, u)
    requires Grounded(reigns, voter) && Stored(reigns, t, n) <= voter
    requires AtLeastAsGood(reigns[u].init, voter)
    ensures Stored(reigns, t, n) <= reigns[u].init
  {
    var cand := reigns[u].init;
    assert ReignOk(c, votes, bids, reigns, u);
    assert Grounded(reigns, cand);
    GroundedSorted(c, votes, bids, reigns, voter);
    assert voter[n - 1].term == t;
    assert t <= TermOf(voter, |voter|);
    assert cand != [];
    var w := TermOf(cand, |cand|);
    WholeLogGrounded(reigns, cand);
    WholeLogGrounded(reigns, voter);
    assert w < u;
    if w == TermOf(voter, |voter|) {
      assert voter <= cand;
    } else {
      ReignTerms(c, votes, bids, reigns, w, |cand| - 1);
      assert reigns[w].log[|cand| - 1] == cand[|cand| - 1];
      assert |reigns[w].init| < |cand|;
      assert Stored(reigns, t, n) <= reigns[w].init <= reigns[w].log;
    }
  }

  /** An entry committed in term t is in the log of the leader of every later term. */
  lemma {:induction false} LeaderCompleteness(c: Configuration, votes: Votes, bids: Bids, reigns: Reigns, acks: Acks,
                                              commits: Commits,
                                              t: int, n: int, u: int)
    requires LedgerOk(c, votes, bids, reigns, acks, commits)
    requires (t, n) in commits && u in reigns && t < u
    ensures Stored(reigns, t, n) <= reigns[u].init
    decreases u - t
  {
    var prefix := Stored(reigns, t, n);
    forall w | w in reigns && t < w < u
      ensures prefix <= reigns[w].init
    {
      LeaderCompleteness(c, votes, bids, reigns, acks, commits, t, n, w);
    }
    assert ReignOk(c, votes, bids, reigns, u);
    MajoritiesMeet(c.voters.Keys, commits[(t, n)], reigns[u].electors);
    var v :| v in commits[(t, n)] && v in reigns[u].electors;
    assert (v, t) in acks && (v, u) in votes && Carries(reigns, t, n, u, votes[(v, u)].log);
    VoterCarriesPrefix(c, votes, bids, reigns, t, n, u, votes[(v, u)].log);
  }

  // ---- Committed prefixes ----

  /** The log is a prefix of something committed in a term no later than `bound`. */
  ghost predicate CommittedBy(reigns: Reigns, commits: Commits, log: Log, bound: int) {
    log == [] || exists t, n :: (t, n) in commits && t <= bound && |log| <= n && log <= Stored(reigns, t, n)
  }

  lemma CommitInLeader(c: Configuration, votes: Votes, bids: Bids, reigns: Reigns, acks: Acks, commits: Commits,
                       t: int, n: int, u: int)
    requires LedgerOk(c, votes, bids, reigns, acks, commits)
    requires (t, n) in commits && u in reigns && t <= u
    ensures Stored(reigns, t, n) <= reigns[u].log
  {
    if t < u {
      LeaderCompleteness(c, votes, bids, reigns, acks, commits, t, n, u);
      assert reigns[u].init <= reigns[u].log by {
        assert ReignOk(c, votes, bids, reigns, u);
      }
    }
  }

  /** A leader's log contains everything committed in its own or an earlier term. */
  lemma LeaderHasCommitted(c: Configuration, votes: Votes, bids: Bids, reigns: Reigns, acks: Acks, commits: Commits,
                           log: Log, u: int)
    requires LedgerOk(c, votes, bids, reigns, acks, commits)
    requires u in reigns && CommittedBy(reigns, commits, log, u)
    ensures log <= reigns[u].log
  {
    if log != [] {
      var t, n :| (t, n) in commits && t <= u && |log| <= n && log <= Stored(reigns, t, n);
      hide *;
      CommitInLeader(c, votes, bids, reigns, acks, commits, t, n, u);
    }
  }

  /** State machine safety on the ledger: any two committed prefixes are prefixes of one another. */
  lemma CommittedAgree(c: Configuration, votes: Votes, bids: Bids, reigns: Reigns, acks: Acks, commits: Commits,
                       a: Log, b: Log, m: int, n: int)
    requires LedgerOk(c, votes, bids, reigns, acks, commits)
    requires CommittedBy(reigns, commits, a, m) && CommittedBy(reigns, commits, b, n)
    ensures a <= b || b <= a
  {
    if a != [] && b != [] {
      var t, j :| (t, j) in commits && t <= m && |a| <= j && a <= Stored(reigns, t, j);
      var u, k :| (u, k) in commits && u <= n && |b| <= k && b <= Stored(reigns, u, k);
      var top := if t < u then u else t;
      assert CommittedBy(reigns, commits, a, top);
      assert CommittedBy(reigns, commits, b, top);
      LeaderHasCommitted(c, votes, bids, reigns, acks, commits, a, top);
      LeaderHasCommitted(c, votes, bids, reigns, acks, commits, b, top);
    }
  }

  // ---- Growth ----

  /** Leaders, electors and first logs are final; a leader's log is only extended. */
  ghost predicate ReignsGrow(a: Reigns, b: Reigns) {
    forall t :: t in a ==> t in b && b[t].leader == a[t].leader && b[t].electors == a[t].electors
                           && b[t].init == a[t].init && a[t].log <= b[t].log && a[t].rounds <= b[t].rounds
  }

  lemma GroundedGrows(a: Reigns, b: Reigns, log: Log)
    requires ReignsGrow(a, b) && Grounded(a, log)
    ensures Grounded(b, log)
  {
    forall p | 0 <= p < |log|
      ensures log[p].term in b && log[..p + 1] <= b[log[p].term].log
    {
      assert log[..p + 1] <= a[log[p].term].log <= b[log[p].term].log;
    }
  }

  lemma StoredGrows(a: Reigns, b: Reigns, t: int, k: int)
    requires ReignsGrow(a, b) && t in a && 0 <= k <= |a[t].log|
    ensures Stored(b, t, k) == Stored(a, t, k)
  {
  }

  lemma CommittedByGrows(a: Reigns, b: Reigns, cs: Commits, ds: Commits, log: Log, bound: int, higher: int)
    requires ReignsGrow(a, b) && bound <= higher && (forall k :: k in cs ==> k in ds)
    requires forall t, n :: (t, n) in cs ==> t in a && 0 <= n <= |a[t].log|
    requires CommittedBy(a, cs, log, bound)
    ensures CommittedBy(b, ds, log, higher)
  {
    if log != [] {
      var t, n :| (t, n) in cs && t <= bound && |log| <= n && log <= Stored(a, t, n);
      StoredGrows(a, b, t, n);
      assert (t, n) in ds;
    }
  }

  /** A prefix of a committed prefix is committed. */
  lemma CommittedByPrefix(reigns: Reigns, commits: Commits, log: Log, bound: int, k: int)
    requires CommittedBy(reigns, commits, log, bound) && 0 <= k <= |log|
    ensures CommittedBy(reigns, commits, log[..k], bound)
  {
    if log != [] {
      var t, n :| (t, n) in commits && t <= bound && |log| <= n && log <= Stored(reigns, t, n);
      assert log[..k] <= Stored(reigns, t, n);
    }
  }

  lemma ReignOkGrows(c: Configuration, votes: Votes, votes': Votes, bids: Bids, bids': Bids, a: Reigns, b: Reigns,
                     t: int)
    requires t in a && ReignOk(c, votes, bids, a, t) && ReignsGrow(a, b) && b[t].log == a[t].log
    requires forall k :: k in votes ==> k in votes' && votes'[k] == votes[k]
    requires forall k :: k in bids ==> k in bids' && bids'[k] == bids[k]
    ensures ReignOk(c, votes', bids', b, t)
  {
    GroundedGrows(a, b, a[t].log);
  }

  lemma CarriesGrows(a: Reigns, b: Reigns, t: int, k: int, bound: int, log: Log, longer: Log)
    requires ReignsGrow(a, b) && t in a && 0 <= k <= |a[t].log| && Carries(a, t, k, bound, log) && log <= longer
    ensures Carries(b, t, k, bound, longer)
  {
    StoredGrows(a, b, t, k);
    if Unbroken(b, Stored(b, t, k), t, bound) {
      assert Unbroken(a, Stored(a, t, k), t, bound);
    }
  }

  lemma PromisesGrow(a: Reigns, b: Reigns, acks: Acks, votes: Votes)
    requires ReignsGrow(a, b) && AcksOk(a, acks) && PromisesOk(a, acks, votes)
    ensures PromisesOk(b, acks, votes)
  {
    forall v, t, u, k | (v, t) in acks && (v, u) in votes && t < u && votes[(v, u)].early && 0 <= k <= acks[(v, t)]
      ensures Carries(b, t, k, u, votes[(v, u)].log)
    {
      assert Carries(a, t, k, u, votes[(v, u)].log);
      CarriesGrows(a, b, t, k, u, votes[(v, u)].log, votes[(v, u)].log);
    }
  }

  lemma RestGrows(c: Configuration, votes: Votes, bids: Bids, a: Reigns, b: Reigns, acks: Acks, commits: Commits)
    requires ReignsGrow(a, b)
    requires BidsOk(a, bids) && VotesOk(a, bids, votes) && AcksOk(a, acks) && CommitsOk(c, a, acks, commits)
    ensures BidsOk(b, bids) && VotesOk(b, bids, votes) && AcksOk(b, acks) && CommitsOk(c, b, acks, commits)
  {
    forall x, t | (x, t) in bids
      ensures Grounded(b, bids[(x, t)])
    {
      GroundedGrows(a, b, bids[(x, t)]);
    }
    forall v, t | (v, t) in votes
      ensures Grounded(b, votes[(v, t)].log)
    {
      GroundedGrows(a, b, votes[(v, t)].log);
    }
  }

  // ---- What each kind of event adds ----

  lemma BidAdded(c: Configuration, votes: Votes, bids: Bids, reigns: Reigns, acks: Acks, commits: Commits, x: int,
                 u: int, log: Log)
    requires LedgerOk(c, votes, bids, reigns, acks, commits)
    requires (x, u) !in bids && u >= 1 && TermsBelow(log, u) && Grounded(reigns, log) && WellIndexed(log)
    ensures LedgerOk(c, votes, bids[(x, u) := log], reigns, acks, commits)
  {
    var bids' := bids[(x, u) := log];
    forall t | t in reigns
      ensures ReignOk(c, votes, bids', reigns, t)
    {
      ReignOkGrows(c, votes, votes, bids, bids', reigns, reigns, t);
    }
  }

  /** The new vote honours what its voter has acknowledged. */
  ghost predicate VoteHonours(reigns: Reigns, acks: Acks, v: int, u: int, log: Log) {
    forall t, k :: (v, t) in acks && t < u && 0 <= k <= acks[(v, t)] ==> Carries(reigns, t, k, u, log)
  }

  lemma VoteAdded(c: Configuration, votes: Votes, bids: Bids, reigns: Reigns, acks: Acks, commits: Commits, v: int,
                  u: int, vote: Vote)
    requires LedgerOk(c, votes, bids, reigns, acks, commits)
    requires (v, u) !in votes && (vote.candidate, u) in bids && vote.early == (u !in reigns)
    requires AtLeastAsGood(bids[(vote.candidate, u)], vote.log) && Grounded(reigns, vote.log)
    requires vote.early ==> VoteHonours(reigns, acks, v, u, vote.log)
    ensures LedgerOk(c, votes[(v, u) := vote], bids, reigns, acks, commits)
  {
    var votes' := votes[(v, u) := vote];
    forall t | t in reigns
      ensures ReignOk(c, votes', bids, reigns, t)
    {
      ReignOkGrows(c, votes, votes', bids, bids, reigns, reigns, t);
    }
  }

  lemma ReignAdded(c: Configuration, votes: Votes, bids: Bids, reigns: Reigns, acks: Acks, commits: Commits, u: int,
                   r: Reign)
    requires LedgerOk(c, votes, bids, reigns, acks, commits)
    requires u !in reigns && c.HasQuorum(r.electors)
    requires forall v :: v in r.electors ==> (v, u) in votes && votes[(v, u)].candidate == r.leader
    requires (r.leader, u) in bids && bids[(r.leader, u)] == r.init
    requires r.init <= r.log && WellIndexed(r.log) && (forall p :: |r.init| <= p < |r.log| ==> r.log[p].term == u)
    ensures LedgerOk(c, votes, bids, reigns[u := r], acks, commits)
  {
    var reigns' := reigns[u := r];
    assert ReignsGrow(reigns, reigns');
    RestGrows(c, votes, bids, reigns, reigns', acks, commits);
    PromisesGrow(reigns, reigns', acks, votes);
    OwnLogGrounded(reigns', u, r);
    forall t | t in reigns'
      ensures ReignOk(c, votes, bids, reigns', t)
    {
      if t != u {
        ReignOkGrows(c, votes, votes, bids, bids, reigns, reigns', t);
      }
    }
  }

  lemma OwnLogGrounded(reigns: Reigns, u: int, r: Reign)
    requires u in reigns && reigns[u] == r && r.init <= r.log && Grounded(reigns, r.init)
    requires forall p :: |r.init| <= p < |r.log| ==> r.log[p].term == u
    ensures Grounded(reigns, r.log)
  {
    forall p | 0 <= p < |r.log|
      ensures r.log[p].term in reigns && r.log[..p + 1] <= reigns[r.log[p].term].log
    {
      if p < |r.init| {
        assert r.init[p] == r.log[p] && r.init[..p + 1] == r.log[..p + 1];
      }
    }
  }

  /** A leader's own log grows by entries of its own term, or it starts another round. */
  lemma ReignExtended(c: Configuration, votes: Votes, bids: Bids, reigns: Reigns, acks: Acks, commits: Commits, u: int,
                      log: Log, rounds: int)
    requires LedgerOk(c, votes, bids, reigns, acks, commits)
    requires u in reigns && reigns[u].log <= log && WellIndexed(log) && rounds >= reigns[u].rounds
    requires forall p :: |reigns[u].log| <= p < |log| ==> log[p].term == u
    ensures LedgerOk(c, votes, bids, reigns[u := reigns[u].(log := log, rounds := rounds)], acks, commits)
    ensures ReignsGrow(reigns, reigns[u := reigns[u].(log := log, rounds := rounds)])
  {
    var r := reigns[u].(log := log, rounds := rounds);
    var reigns' := reigns[u := r];
    RestGrows(c, votes, bids, reigns, reigns', acks, commits);
    PromisesGrow(reigns, reigns', acks, votes);
    assert ReignOk(c, votes, bids, reigns, u);
    forall p | |r.init| <= p < |r.log|
      ensures r.log[p].term == u
    {
      if p < |reigns[u].log| {
        assert r.log[p] == reigns[u].log[p];
      }
    }
    assert Grounded(reigns', r.init) by {
      GroundedGrows(reigns, reigns', bids[(r.leader, u)]);
    }
    OwnLogGrounded(reigns', u, r);
    forall t | t in reigns'
      ensures ReignOk(c, votes, bids, reigns', t)
    {
      if t != u {
        ReignOkGrows(c, votes, votes, bids, bids, reigns, reigns', t);
      }
    }
  }

  lemma AckAdded(c: Configuration, votes: Votes, bids: Bids, reigns: Reigns, acks: Acks, commits: Commits, v: int,
                 t: int, k: int)
    requires LedgerOk(c, votes, bids, reigns, acks, commits)
    requires t in reigns && 0 <= k <= |reigns[t].log| && ((v, t) in acks ==> acks[(v, t)] <= k)
    requires forall u :: (v, u) in votes ==> u <= t
    ensures LedgerOk(c, votes, bids, reigns, acks[(v, t) := k], commits)
  {
    assert PromisesOk(reigns, acks[(v, t) := k], votes);
  }

  lemma CommitAdded(c: Configuration, votes: Votes, bids: Bids, reigns: Reigns, acks: Acks, commits: Commits, t: int,
                    n: int, q: set<int>)
    requires LedgerOk(c, votes, bids, reigns, acks, commits)
    requires t in reigns && 1 <= n <= |reigns[t].log| && reigns[t].log[n - 1].term == t
    requires c.HasQuorum(q) && (forall v :: v in q ==> (v, t) in acks && acks[(v, t)] >= n)
    ensures LedgerOk(c, votes, bids, reigns, acks, commits[(t, n) := q])
  {
  }
}
