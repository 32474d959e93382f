/**
 * The voting page: which elections are shown, whether the user has voted,
 * the vote shares, and the two-step ballot (click, then confirm) that
 * records a vote. The page's state hooks (selectedCandidate, showConfirm)
 * are the fields of Ballot; `currentUser` is what the page read from the
 * session when it rendered, and is passed to the handlers.
 */
module Voting {
  import opened Wrappers
  import opened StorageTypes
  import opened ArrayQueries
  import opened VoteTally
  import opened Storage

  /** The selectedCandidate state: the election and candidate of the pending vote. */
  datatype Choice = Choice(electionId: string, candidateId: string)

  /** The one failure the page reports in an error toast. */
  datatype VoteError = AlreadyVoted

  const IS_ACTIVE: Election -> bool := (e: Election) => e.status == ElectionStatus.Active

  /** activeElections: the stored elections whose status is active, in stored order. */
  function ActiveElections(elections: seq<Election>): (r: seq<Election>)
    ensures |r| <= |elections|
    ensures forall i | 0 <= i < |r| :: r[i] in elections && r[i].status == ElectionStatus.Active
    ensures forall i | 0 <= i < |elections| && elections[i].status == ElectionStatus.Active :: elections[i] in r
    ensures forall e: Election :: multiset(r)[e] == if e.status == ElectionStatus.Active then multiset(elections)[e] else 0
  {
    FilterCountsAll(elections, IS_ACTIVE);
    Filter(elections, IS_ACTIVE)
  }

  /** The active elections keep the stored order: those of a prefix come first. */
  lemma ActiveElectionsInOrder(a: seq<Election>, b: seq<Election>)
    ensures ActiveElections(a + b) == ActiveElections(a) + ActiveElections(b)
  {
    FilterAppend(a, b, IS_ACTIVE);
  }

  /** hasVoted: a logged-in user with a stored vote in the election. */
  function HasVoted(store: Store, currentUser: Option<User>, electionId: string): (r: bool)
    reads store
    ensures r <==> currentUser.Some? &&
                   exists j | 0 <= j < |store.GetVotes()| ::
                     store.GetVotes()[j].userId == currentUser.value.id && store.GetVotes()[j].electionId == electionId
  {
    currentUser.Some? && store.GetUserVoteForElection(currentUser.value.id, electionId).Some?
  }

  /** getTotalVotes: the sum of the election's counts, which is its number of votes. */
  method GetTotalVotes(store: Store, electionId: string) returns (total: nat)
    ensures total == |Filter(store.GetVotes(), InElection(electionId))|
  {
    var counts := store.GetVoteCountsForElection(electionId);
    TallyMeaning(store.GetVotes(), electionId);
    total := Total(counts);
  }

  /** `(voteCount / totalVotes) * 100`, or 0 when there are no votes. */
  function Share(voteCount: nat, total: nat): (r: real)
    ensures total == 0 || voteCount == 0 ==> r == 0.0
    ensures voteCount <= total ==> 0.0 <= r <= 100.0
  {
    if total > 0 then
      ShareScales(voteCount as real, total as real);
      (voteCount as real / total as real) * 100.0
    else 0.0
  }

  lemma ShareScales(n: real, t: real)
    requires t > 0.0
    ensures ((n / t) * 100.0) * t == n * 100.0
    ensures 0.0 <= n <= t ==> 0.0 <= (n / t) * 100.0 <= 100.0
  {
    assert (n / t) * t == n;
  }

  /** A share is the count per hundred of the total: it times the total is 100 times the count. */
  lemma ShareMeaning(voteCount: nat, total: nat)
    requires total > 0
    ensures Share(voteCount, total) * total as real == voteCount as real * 100.0
  {
    ShareScales(voteCount as real, total as real);
  }

  /** The percentage shown beside a candidate: its count, `counts[c] || 0`, as a share of the total. */
  function Percentage(counts: seq<CandidateCount>, total: nat, candidateId: string): (r: real)
    ensures total == 0 || CountOf(counts, candidateId) == 0 ==> r == 0.0
    ensures CountOf(counts, candidateId) <= total ==> 0.0 <= r <= 100.0
  {
    Share(CountOf(counts, candidateId), total)
  }

  /** The percentages of the entries `entries`, added up. */
  function PercentageSum(counts: seq<CandidateCount>, entries: seq<CandidateCount>, total: nat): real {
    if entries == [] then 0.0
    else PercentageSum(counts, entries[..|entries| - 1], total) + Percentage(counts, total, entries[|entries| - 1].candidateId)
  }

  /** In a well-formed count, the entry at `k` is the one `counts[c]` reads. */
  lemma EntryIsCount(counts: seq<CandidateCount>, k: nat)
    requires WellFormed(counts) && k < |counts|
    ensures CountOf(counts, counts[k].candidateId) == counts[k].votes
  {
  }

  /** Every percentage the page shows for an election lies between 0 and 100. */
  lemma PercentageInRange(vs: seq<Vote>, electionId: string, candidateId: string)
    ensures var counts := Tally(vs, electionId);
            0.0 <= Percentage(counts, Total(counts), candidateId) <= 100.0
  {
    TallyMeaning(vs, electionId);
    FilterTwice(vs, electionId, candidateId);
    var mine := Filter(vs, InElection(electionId));
    assert |Filter(mine, ForCandidate(candidateId))| <= |mine|;
  }

  /** Shares of the same total add up like the counts they stand for. */
  lemma ShareAdds(x: nat, y: nat, t: nat)
    ensures Share(x, t) + Share(y, t) == Share(x + y, t)
  {
    if t > 0 {
      var tr := t as real;
      assert (x as real + y as real) / tr == x as real / tr + y as real / tr;
    }
  }

  /**
   * The shares shown beside one election's results add up to 100 when the
   * election has votes: one share per entry of the count.
   */
  lemma PercentagesSumToHundred(counts: seq<CandidateCount>)
    requires WellFormed(counts) && Total(counts) > 0
    ensures PercentageSum(counts, counts, Total(counts)) == 100.0
  {
    var t := Total(counts);
    SharesAdd(counts, counts, t);
    CountsAddUp(counts, |counts|);
    assert counts[..|counts|] == counts;
    ShareOfWhole(t);
  }

  lemma ShareOfWhole(t: nat)
    requires t > 0
    ensures Share(t, t) == 100.0
  {
    assert t as real / t as real == 1.0;
  }

  /** The entries' counts as `counts[c] || 0` reads them, added up. */
  function CountSum(counts: seq<CandidateCount>, entries: seq<CandidateCount>): nat {
    if entries == [] then 0
    else CountSum(counts, entries[..|entries| - 1]) + CountOf(counts, entries[|entries| - 1].candidateId)
  }

  /** The entries' shares add up to the share of their counts' sum. */
  lemma {:induction false} SharesAdd(counts: seq<CandidateCount>, entries: seq<CandidateCount>, t: nat)
    ensures PercentageSum(counts, entries, t) == Share(CountSum(counts, entries), t)
    decreases |entries|
  {
    if entries != [] {
      var init := entries[..|entries| - 1];
      SharesAdd(counts, init, t);
      ShareAdds(CountSum(counts, init), CountOf(counts, entries[|entries| - 1].candidateId), t);
    }
  }

  /** In a well-formed count, reading each of the first `k` entries back gives their votes. */
  lemma {:induction false} CountsAddUp(counts: seq<CandidateCount>, k: nat)
    requires WellFormed(counts) && k <= |counts|
    ensures CountSum(counts, counts[..k]) == Total(counts[..k])
  {
    if k > 0 {
      CountsAddUp(counts, k - 1);
      assert counts[..k][..k - 1] == counts[..k - 1];
      EntryIsCount(counts, k - 1);
    }
  }

  /** The candidates of an election have distinct ids. */
  predicate DistinctIds(cands: seq<Candidate>) {
    forall i, j | 0 <= i < j < |cands| :: cands[i].id != cands[j].id
  }

  /** Whether some candidate of the list has the id. */
  predicate Listed(cands: seq<Candidate>, id: string) {
    exists j | 0 <= j < |cands| :: cands[j].id == id
  }

  /** The percentages the page shows beside each candidate of `cands`, added up. */
  function ShownPercentageSum(counts: seq<CandidateCount>, cands: seq<Candidate>, total: nat): real {
    if cands == [] then 0.0
    else ShownPercentageSum(counts, cands[..|cands| - 1], total) + Percentage(counts, total, cands[|cands| - 1].id)
  }

  /** The counts `counts[c.id] || 0` of each candidate of `cands`, added up. */
  function ShownCountSum(counts: seq<CandidateCount>, cands: seq<Candidate>): nat {
    if cands == [] then 0
    else ShownCountSum(counts, cands[..|cands| - 1]) + CountOf(counts, cands[|cands| - 1].id)
  }

  /** The shown percentages add up to the share of the candidates' summed counts. */
  lemma {:induction false} ShownSharesAdd(counts: seq<CandidateCount>, cands: seq<Candidate>, t: nat)
    ensures ShownPercentageSum(counts, cands, t) == Share(ShownCountSum(counts, cands), t)
    decreases |cands|
  {
    if cands != [] {
      var init := cands[..|cands| - 1];
      ShownSharesAdd(counts, init, t);
      ShareAdds(ShownCountSum(counts, init), CountOf(counts, cands[|cands| - 1].id), t);
    }
  }

  /** No candidate reads a count from an empty counts object. */
  lemma {:induction false} ShownCountSumEmpty(cands: seq<Candidate>)
    ensures ShownCountSum([], cands) == 0
    decreases |cands|
  {
    if cands != [] {
      ShownCountSumEmpty(cands[..|cands| - 1]);
    }
  }

  /** An entry appended for a new candidate adds its votes to that candidate's count only. */
  lemma CountOfSnoc(init: seq<CandidateCount>, last: CandidateCount, id: string)
    requires forall i | 0 <= i < |init| :: init[i].candidateId != last.candidateId
    ensures CountOf(init + [last], id) == CountOf(init, id) + (if id == last.candidateId then last.votes else 0)
  {
    var counts := init + [last];
    assert forall i | 0 <= i < |init| :: counts[i] == init[i];
    if id == last.candidateId {
      assert counts[|init|] == last;
    }
  }

  /** Appending an entry adds its votes to the sum once when its candidate is listed, and not at all otherwise. */
  lemma {:induction false} ShownCountSumSnoc(init: seq<CandidateCount>, last: CandidateCount, cands: seq<Candidate>)
    requires forall i | 0 <= i < |init| :: init[i].candidateId != last.candidateId
    requires DistinctIds(cands)
    ensures ShownCountSum(init + [last], cands)
         == ShownCountSum(init, cands) + (if Listed(cands, last.candidateId) then last.votes else 0)
    decreases |cands|
  {
    if cands != [] {
      var rest, c := cands[..|cands| - 1], cands[|cands| - 1];
      assert DistinctIds(rest);
      ShownCountSumSnoc(init, last, rest);
      CountOfSnoc(init, last, c.id);
      if Listed(rest, last.candidateId) {
        var j :| 0 <= j < |rest| && rest[j].id == last.candidateId;
        assert cands[j] == rest[j];
      }
      if Listed(cands, last.candidateId) && c.id != last.candidateId {
        var j :| 0 <= j < |cands| && cands[j].id == last.candidateId;
        assert rest[j] == cands[j];
      }
    }
  }

  /** When every counted candidate is listed once, the listed counts add up to the total. */
  lemma {:induction false} ShownCountsAddUp(counts: seq<CandidateCount>, cands: seq<Candidate>)
    requires WellFormed(counts) && DistinctIds(cands)
    requires forall i | 0 <= i < |counts| :: Listed(cands, counts[i].candidateId)
    ensures ShownCountSum(counts, cands) == Total(counts)
    decreases |counts|
  {
    if counts == [] {
      ShownCountSumEmpty(cands);
    } else {
      var init, last := counts[..|counts| - 1], counts[|counts| - 1];
      assert counts == init + [last];
      assert forall i | 0 <= i < |init| :: init[i] == counts[i];
      ShownCountsAddUp(init, cands);
      ShownCountSumSnoc(init, last, cands);
    }
  }

  /**
   * The percentages the page shows beside an election's candidates add up to
   * 100 when the election has votes, its candidates have distinct ids, and
   * every candidate with a vote is on its list.
   */
  lemma ShownPercentagesSumToHundred(counts: seq<CandidateCount>, cands: seq<Candidate>)
    requires WellFormed(counts) && Total(counts) > 0 && DistinctIds(cands)
    requires forall i | 0 <= i < |counts| :: Listed(cands, counts[i].candidateId)
    ensures ShownPercentageSum(counts, cands, Total(counts)) == 100.0
  {
    var t := Total(counts);
    ShownSharesAdd(counts, cands, t);
    ShownCountsAddUp(counts, cands);
    ShareOfWhole(t);
  }

  /** The vote confirmVote records; the id is `v_` followed by the clock reading. */
  function NewVote(user: User, choice: Choice, now: nat): (v: Vote)
    ensures v.userId == user.id && v.electionId == choice.electionId && v.candidateId == choice.candidateId
    ensures v.votedAt == now
  {
    Vote("v_" + DecimalText(now), choice.electionId, user.id, choice.candidateId, now)
  }

  /**
   * The guard is what keeps one vote per person per election: a vote whose
   * (user, election) the click check found unused keeps the votes free of
   * duplicates, and a vote whose pair is used breaks it.
   */
  lemma CastKeepsOneVote(vs: seq<Vote>, v: Vote)
    requires OneVotePerElection(vs)
    ensures OneVotePerElection(vs + [v]) <==>
              forall j | 0 <= j < |vs| :: !(vs[j].userId == v.userId && vs[j].electionId == v.electionId)
  {
    var ws := vs + [v];
    if !forall j | 0 <= j < |vs| :: !(vs[j].userId == v.userId && vs[j].electionId == v.electionId) {
      var j :| 0 <= j < |vs| && vs[j].userId == v.userId && vs[j].electionId == v.electionId;
      assert ws[j] == vs[j] && ws[|vs|] == v;
    } else {
      forall i, j | 0 <= i < j < |ws| ensures !(ws[i].userId == ws[j].userId && ws[i].electionId == ws[j].electionId) {
        if j < |vs| {
          assert ws[i] == vs[i] && ws[j] == vs[j];
        } else {
          assert ws[i] == vs[i] && ws[j] == v;
        }
      }
    }
  }

  /**
   * The write of confirmVote: the vote is appended, and its voter has voted
   * in its election. The votes keep one per user and election exactly when
   * the pair was unused.
   */
  method RecordVote(store: Store, vote: Vote)
    modifies store`votes
    ensures store.votes == Some(old(store.GetVotes()) + [vote])
    ensures store.GetUserVoteForElection(vote.userId, vote.electionId).Some?
    ensures old(OneVotePerElection(store.GetVotes())) ==>
              (OneVotePerElection(store.GetVotes()) <==> old(store.GetUserVoteForElection(vote.userId, vote.electionId)).None?)
  {
    if OneVotePerElection(store.GetVotes()) {
      CastKeepsOneVote(store.GetVotes(), vote);
    }
    store.SaveVote(vote);
  }

  /** The page state of the ballot. */
  class Ballot {
    var selectedCandidate: Option<Choice>
    var showConfirm: bool

    /** No pending choice, the dialog closed. */
    constructor ()
      ensures selectedCandidate.None? && !showConfirm
    {
      selectedCandidate := None;
      showConfirm := false;
    }

    /** handleVoteClick: a user who has voted is refused; otherwise the dialog opens on the choice. */
    method HandleVoteClick(store: Store, currentUser: Option<User>, electionId: string, candidateId: string)
        returns (error: Option<VoteError>)
      modifies this
      ensures HasVoted(store, currentUser, electionId) ==>
                error == Some(AlreadyVoted) && selectedCandidate == old(selectedCandidate) && showConfirm == old(showConfirm)
      ensures !HasVoted(store, currentUser, electionId) ==>
                error.None? && selectedCandidate == Some(Choice(electionId, candidateId)) && showConfirm
    {
      if HasVoted(store, currentUser, electionId) {
        return Some(AlreadyVoted);
      }
      selectedCandidate := Some(Choice(electionId, candidateId));
      showConfirm := true;
      error := None;
    }

    /** The dialog's cancel button; the choice stays. */
    method Cancel()
      modifies this`showConfirm
      ensures !showConfirm
    {
      showConfirm := false;
    }

    /**
     * confirmVote: without a user or a pending choice nothing happens;
     * otherwise one vote is appended and the ballot closes. It does not look
     * again at whether the user has voted, nor at the election's status, so
     * one vote per user and election holds only when the click check passed
     * against the same stored votes.
     */
    method ConfirmVote(store: Store, currentUser: Option<User>, now: nat) returns (cast: Option<Vote>)
      modifies this, store`votes
      ensures currentUser.None? || old(selectedCandidate).None? ==>
                && cast.None? && store.votes == old(store.votes)
                && selectedCandidate == old(selectedCandidate) && showConfirm == old(showConfirm)
      ensures currentUser.Some? && old(selectedCandidate).Some? ==>
                var choice := old(selectedCandidate).value;
                && cast == Some(NewVote(currentUser.value, choice, now))
                && store.votes == Some(old(store.GetVotes()) + [cast.value])
                && HasVoted(store, currentUser, choice.electionId)
                && (old(OneVotePerElection(store.GetVotes())) ==>
                      (OneVotePerElection(store.GetVotes()) <==> !old(HasVoted(store, currentUser, choice.electionId))))
                && selectedCandidate.None? && !showConfirm
    {
      if currentUser.None? || selectedCandidate.None? {
        return None;
      }
      var choice := selectedCandidate.value;
      var vote := Vote("v_" + DecimalText(now), choice.electionId, currentUser.value.id, choice.candidateId, now);
      RecordVote(store, vote);
      showConfirm := false;
      selectedCandidate := None;
      cast := Some(vote);
    }
  }
}
