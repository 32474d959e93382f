/**
 * Two sessions against a freshly seeded store, driving the page handlers the
 * way the pages call them: Jane Doe (1500 tokens) stakes 200 on the home side
 * of m_002 at odds 2.1; then she votes for c1 in e_001 and is refused a second
 * vote. The assertions are the outcomes of these two sessions.
 */
module Scenarios {
  import opened Wrappers
  import opened StorageTypes
  import opened ArrayQueries
  import opened StorageSeed
  import opened VoteTally
  import opened Storage
  import opened EventDetail
  import opened Voting

  /** A first visit: the store is seeded, then Jane Doe signs in. */
  method SeededSession(now: nat) returns (store: Store)
    ensures store.GetUsers() == DefaultUsers(now) && store.GetEvents() == DefaultEvents(now)
    ensures store.GetBets() == [] && store.GetVotes() == []
    ensures store.currentUserId == Some("u_student1")
    ensures fresh(store)
  {
    store := new Store();
    store.InitializeData(now);
    store.SetCurrentUser(Some("u_student1"));
  }

  /** In the seed, u_student1 is Jane Doe and m_002 is the basketball final. */
  lemma SeededLookups(now: nat)
    ensures Find(DefaultUsers(now), KeyIs(USER_ID, "u_student1")) == Some(DefaultUsers(now)[1])
    ensures Find(DefaultEvents(now), KeyIs(EVENT_ID, "m_002")) == Some(DefaultEvents(now)[1])
  {
    var us := DefaultUsers(now);
    assert KeyIs(USER_ID, "u_student1")(us[1]);
    var es := DefaultEvents(now);
    assert KeyIs(EVENT_ID, "m_002")(es[1]);
  }

  /** Picks the home side, types 200 and presses place bet: the dialog opens. */
  method OpenSlip(event: Event, user: Option<User>) returns (slip: BetSlip)
    requires event.status != Finished && user.Some? && user.value.balance >= 200.0
    ensures fresh(slip) && slip.selectedBet == Some(Home) && slip.betAmount == Number(200.0) && slip.showConfirm
  {
    slip := new BetSlip();
    var error := slip.HandleBetClick(event, Home);
    slip.EnterAmount(Number(200.0));
    error := slip.HandlePlaceBet(user);
  }

  /** The bet: Jane Doe's 200 on home pays 420, is pending, and leaves her 1300 tokens. */
  method SeededBet(now: nat) returns (placed: Bet, balance: real)
    ensures placed.userId == "u_student1" && placed.matchId == "m_002" && placed.selection == Home
    ensures placed.stake == 200.0 && placed.payout == 420 && placed.status == Pending
    ensures balance == 1300.0
  {
    var store := SeededSession(now);
    SeededLookups(now);
    var users := DefaultUsers(now);
    var user := store.GetCurrentUser();
    var event := store.GetEvent("m_002");
    assert user == Some(users[1]) && event == Some(DefaultEvents(now)[1]);
    var slip := OpenSlip(event.value, user);
    var bet := slip.ConfirmBet(store, user, event.value, now);
    placed := bet.value;
    assert placed.payout as real <= 420.0 < placed.payout as real + 1.0;
    assert placed.payout == 420 && placed.status == Pending;
    assert store.GetBets() == [placed];
    CreditFind(users, "u_student1", -200.0);
    assert store.GetUser("u_student1") == Some(users[1].(balance := 1300.0));
    balance := store.GetUser("u_student1").value.balance;
  }

  /** A vote for c1 is recorded; a second click, for c2, is refused. */
  method VoteTwice(store: Store, user: Option<User>, now: nat) returns (first: Vote, again: Option<VoteError>)
    requires user.Some? && store.GetVotes() == []
    modifies store`votes
    ensures store.GetVotes() == [first] && first == NewVote(user.value, Choice("e_001", "c1"), now)
    ensures again == Some(AlreadyVoted)
  {
    var ballot := new Ballot();
    var error := ballot.HandleVoteClick(store, user, "e_001", "c1");
    var cast := ballot.ConfirmVote(store, user, now);
    first := cast.value;
    again := ballot.HandleVoteClick(store, user, "e_001", "c2");
  }

  /** Jane Doe's second vote in e_001 is refused, and e_001 counts one vote, for c1. */
  method DoubleVote(now: nat) returns (again: Option<VoteError>, counts: seq<CandidateCount>)
    ensures again == Some(AlreadyVoted)
    ensures counts == [CandidateCount("c1", 1)]
  {
    var store := SeededSession(now);
    SeededLookups(now);
    var user := store.GetCurrentUser();
    var first;
    first, again := VoteTwice(store, user, now);
    counts := store.GetVoteCountsForElection("e_001");
    OneVoteTally(first);
  }

  /** A single vote tallies as one entry with one vote. */
  lemma OneVoteTally(v: Vote)
    ensures Tally([v], v.electionId) == [CandidateCount(v.candidateId, 1)]
  {
    assert Filter([v], InElection(v.electionId)) == [v];
    assert CountByCandidate([v]) == Bump([], v.candidateId);
  }
}
