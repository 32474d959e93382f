/**
 * The vote-count object that getVoteCountsForElection builds: an
 * insertion-ordered list of (candidate id, count) entries, which is how a
 * JavaScript object keyed by non-numeric strings behaves. The loop that builds
 * it lives in Storage.Store.GetVoteCountsForElection; this module gives the
 * specification it is proved against, and what that specification means.
 */
module VoteTally {
  import opened StorageTypes
  import opened ArrayQueries

  datatype CandidateCount = CandidateCount(candidateId: string, votes: nat)

  const CANDIDATE_ID: CandidateCount -> string := (c: CandidateCount) => c.candidateId

  function InElection(electionId: string): Vote -> bool { (v: Vote) => v.electionId == electionId }
  function ForCandidate(candidateId: string): Vote -> bool { (v: Vote) => v.candidateId == candidateId }
  function ForCandidateIn(electionId: string, candidateId: string): Vote -> bool {
    (v: Vote) => v.electionId == electionId && v.candidateId == candidateId
  }

  /** `counts[c] || 0`: a candidate without an entry reads as zero votes. */
  function CountOf(counts: seq<CandidateCount>, c: string): (r: nat)
    ensures (forall i | 0 <= i < |counts| :: counts[i].candidateId != c) ==> r == 0
    ensures forall i | 0 <= i < |counts| && counts[i].candidateId == c && (forall j | 0 <= j < i :: counts[j].candidateId != c) ::
              r == counts[i].votes
  {
    var i := FindIndex(counts, KeyIs(CANDIDATE_ID, c));
    assert forall j | 0 <= j < |counts| :: KeyIs(CANDIDATE_ID, c)(counts[j]) == (counts[j].candidateId == c);
    if i < 0 then 0 else counts[i].votes
  }

  /** `counts[c] = (counts[c] || 0) + 1` */
  function Bump(counts: seq<CandidateCount>, c: string): seq<CandidateCount> {
    var i := FindIndex(counts, KeyIs(CANDIDATE_ID, c));
    if i >= 0 then counts[i := counts[i].(votes := counts[i].votes + 1)]
    else counts + [CandidateCount(c, 1)]
  }

  /** The counts object after visiting every vote of `vs` in order. */
  function CountByCandidate(vs: seq<Vote>): seq<CandidateCount>
    decreases |vs|
  {
    if vs == [] then []
    else Bump(CountByCandidate(vs[..|vs| - 1]), vs[|vs| - 1].candidateId)
  }

  /** Bump writes the entry the lookup for `c` finds, or appends one. */
  lemma BumpAt(counts: seq<CandidateCount>, c: string)
    ensures var k := FindIndex(counts, KeyIs(CANDIDATE_ID, c));
            Bump(counts, c) == if k >= 0 then counts[k := CandidateCount(c, counts[k].votes + 1)]
                               else counts + [CandidateCount(c, 1)]
  {
    var k := FindIndex(counts, KeyIs(CANDIDATE_ID, c));
    if k >= 0 {
      assert KeyIs(CANDIDATE_ID, c)(counts[k]);
    }
  }

  /** Counting one more vote bumps that vote's candidate. */
  lemma CountByCandidateStep(vs: seq<Vote>, i: nat)
    requires i < |vs|
    ensures CountByCandidate(vs[..i + 1]) == Bump(CountByCandidate(vs[..i]), vs[i].candidateId)
  {
    assert vs[..i + 1][..i] == vs[..i];
  }

  /** getVoteCountsForElection: filter the votes of one election, then count them. */
  function Tally(vs: seq<Vote>, electionId: string): seq<CandidateCount> {
    CountByCandidate(Filter(vs, InElection(electionId)))
  }

  /** `Object.values(counts).reduce((sum, count) => sum + count, 0)` */
  function Total(counts: seq<CandidateCount>): (r: nat)
    ensures forall i | 0 <= i < |counts| :: counts[i].votes <= r
  {
    if counts == [] then 0 else Total(counts[..|counts| - 1]) + counts[|counts| - 1].votes
  }

  /** Every entry has a distinct candidate and at least one vote. */
  ghost predicate WellFormed(counts: seq<CandidateCount>) {
    && (forall i, j | 0 <= i < j < |counts| :: counts[i].candidateId != counts[j].candidateId)
    && (forall i | 0 <= i < |counts| :: counts[i].votes > 0)
  }

  lemma {:induction false} TotalUpdate(s: seq<CandidateCount>, k: nat, n: nat)
    requires k < |s|
    ensures Total(s[k := s[k].(votes := n)]) == Total(s) - s[k].votes + n
    decreases |s|
  {
    var t := s[k := s[k].(votes := n)];
    var m := |s| - 1;
    assert t[..m] == if k < m then s[..m][k := s[k].(votes := n)] else s[..m];
    if k < m {
      TotalUpdate(s[..m], k, n);
    }
  }

  /** One more vote adds exactly one to the total. */
  lemma BumpTotal(counts: seq<CandidateCount>, c: string)
    ensures Total(Bump(counts, c)) == Total(counts) + 1
  {
    var i := FindIndex(counts, KeyIs(CANDIDATE_ID, c));
    if i >= 0 {
      TotalUpdate(counts, i, counts[i].votes + 1);
    } else {
      assert Bump(counts, c)[..|counts|] == counts;
    }
  }

  /** One more vote for c adds one to c's count and leaves every other count as it was. */
  lemma BumpCount(counts: seq<CandidateCount>, c: string, d: string)
    ensures CountOf(Bump(counts, c), d) == CountOf(counts, d) + (if d == c then 1 else 0)
  {
    var i := FindIndex(counts, KeyIs(CANDIDATE_ID, c));
    var k := FindIndex(counts, KeyIs(CANDIDATE_ID, d));
    var r := Bump(counts, c);
    if i >= 0 {
      assert forall j | 0 <= j < |counts| :: r[j].candidateId == counts[j].candidateId;
      assert FindIndex(r, KeyIs(CANDIDATE_ID, d)) == k;
    } else {
      assert forall j | 0 <= j < |counts| :: r[j] == counts[j];
      if k >= 0 {
        assert FindIndex(r, KeyIs(CANDIDATE_ID, d)) == k;
      } else if d == c {
        assert r[|counts|] == CandidateCount(c, 1);
        assert FindIndex(r, KeyIs(CANDIDATE_ID, d)) == |counts|;
      } else {
        assert FindIndex(r, KeyIs(CANDIDATE_ID, d)) == -1;
      }
    }
  }

  /** Counting keeps one entry per candidate and no empty entry. */
  lemma BumpWellFormed(counts: seq<CandidateCount>, c: string)
    requires WellFormed(counts)
    ensures WellFormed(Bump(counts, c))
  {
    var i := FindIndex(counts, KeyIs(CANDIDATE_ID, c));
    var r := Bump(counts, c);
    if i >= 0 {
      assert forall j | 0 <= j < |counts| :: r[j].candidateId == counts[j].candidateId && r[j].votes >= counts[j].votes;
    } else {
      assert forall j | 0 <= j < |counts| :: r[j] == counts[j];
    }
  }

  lemma {:induction false} CountByCandidateFacts(vs: seq<Vote>)
    ensures WellFormed(CountByCandidate(vs))
    ensures Total(CountByCandidate(vs)) == |vs|
    ensures forall c :: CountOf(CountByCandidate(vs), c) == |Filter(vs, ForCandidate(c))|
    decreases |vs|
  {
    if vs != [] {
      var init, last := vs[..|vs| - 1], vs[|vs| - 1];
      assert vs == init + [last];
      CountByCandidateFacts(init);
      BumpTotal(CountByCandidate(init), last.candidateId);
      BumpWellFormed(CountByCandidate(init), last.candidateId);
      forall c ensures CountOf(CountByCandidate(vs), c) == |Filter(vs, ForCandidate(c))| {
        BumpCount(CountByCandidate(init), last.candidateId, c);
        FilterAppend(init, [last], ForCandidate(c));
        assert [last][1..] == [];
      }
    }
  }

  /** Keeping the votes of one election, then those for one candidate, keeps the votes for that candidate in that election. */
  lemma {:induction false} FilterTwice(vs: seq<Vote>, e: string, c: string)
    ensures Filter(Filter(vs, InElection(e)), ForCandidate(c)) == Filter(vs, ForCandidateIn(e, c))
  {
    if vs != [] {
      var v, rest := vs[0], vs[1..];
      FilterTwice(rest, e, c);
      assert [v][1..] == [];
      if v.electionId == e {
        assert Filter(vs, InElection(e)) == [v] + Filter(rest, InElection(e));
        FilterAppend([v], Filter(rest, InElection(e)), ForCandidate(c));
      } else {
        assert Filter(vs, InElection(e)) == Filter(rest, InElection(e));
      }
    }
  }

  /**
   * What getVoteCountsForElection promises: each candidate's count is the
   * number of votes for it in that election (votes of other elections are
   * ignored), the counts add up to the election's votes, and only candidates
   * with at least one vote have an entry, each once.
   */
  lemma TallyMeaning(vs: seq<Vote>, electionId: string)
    ensures forall c :: CountOf(Tally(vs, electionId), c) == |Filter(vs, ForCandidateIn(electionId, c))|
    ensures Total(Tally(vs, electionId)) == |Filter(vs, InElection(electionId))|
    ensures WellFormed(Tally(vs, electionId))
  {
    CountByCandidateFacts(Filter(vs, InElection(electionId)));
    forall c ensures CountOf(Tally(vs, electionId), c) == |Filter(vs, ForCandidateIn(electionId, c))| {
      FilterTwice(vs, electionId, c);
    }
  }

  /** In well-formed counts a candidate has an entry exactly when its count is positive. */
  lemma EntryIffCounted(counts: seq<CandidateCount>, c: string)
    requires WellFormed(counts)
    ensures (exists i | 0 <= i < |counts| :: counts[i].candidateId == c) <==> CountOf(counts, c) > 0
  {
    if exists i | 0 <= i < |counts| :: counts[i].candidateId == c {
      var i :| 0 <= i < |counts| && counts[i].candidateId == c;
      assert CountOf(counts, c) == counts[i].votes;
    }
  }

  /** A filter is non-empty exactly when some element passes it. */
  lemma {:induction false} FilterNonEmpty<T>(s: seq<T>, p: T -> bool)
    ensures |Filter(s, p)| > 0 <==> exists k | 0 <= k < |s| :: p(s[k])
  {
    if exists k | 0 <= k < |s| :: p(s[k]) {
      var k :| 0 <= k < |s| && p(s[k]);
      assert s[k] in Filter(s, p);
    }
    if |Filter(s, p)| > 0 {
      var f := Filter(s, p);
      assert f[0] in s && p(f[0]);
    }
  }

  /** A candidate has an entry exactly when it received a vote in that election. */
  lemma TallyEntries(vs: seq<Vote>, electionId: string, c: string)
    ensures (exists i | 0 <= i < |Tally(vs, electionId)| :: Tally(vs, electionId)[i].candidateId == c)
        <==> (exists k | 0 <= k < |vs| :: vs[k].electionId == electionId && vs[k].candidateId == c)
  {
    TallyMeaning(vs, electionId);
    EntryIffCounted(Tally(vs, electionId), c);
    FilterNonEmpty(vs, ForCandidateIn(electionId, c));
  }
}
