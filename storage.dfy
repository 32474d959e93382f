/**
 * The browser ledger. Local storage is a map from key to stored value; here
 * each key is a field of Store, None standing for "key absent". Every writer
 * reads the whole collection, changes it in memory and writes it back, and
 * its frame names the one key it writes, so every other key is unchanged.
 */
module Storage {
  import opened Wrappers
  import opened StorageTypes
  import opened ArrayQueries
  import opened VoteTally
  import StorageSeed

  function PlacedBy(userId: string): Bet -> bool { (b: Bet) => b.userId == userId }
  function CastBy(userId: string, electionId: string): Vote -> bool {
    (v: Vote) => v.userId == userId && v.electionId == electionId
  }

  /**
   * updateUserBalance's in-memory change: the first user with the id gets
   * `amount` added to the balance; everything else stays; no user, no change.
   */
  function Credit(us: seq<User>, id: string, amount: real): (r: seq<User>)
    ensures |r| == |us|
    ensures (forall j | 0 <= j < |us| :: us[j].id != id) ==> r == us
  {
    var i := FindIndex(us, KeyIs(USER_ID, id));
    if i < 0 then us else us[i := us[i].(balance := us[i].balance + amount)]
  }

  /** The sum of all balances. */
  function TotalBalance(us: seq<User>): real {
    if us == [] then 0.0 else TotalBalance(us[..|us| - 1]) + us[|us| - 1].balance
  }

  lemma {:induction false} TotalBalanceUpdate(us: seq<User>, k: nat, b: real)
    requires k < |us|
    ensures TotalBalance(us[k := us[k].(balance := b)]) == TotalBalance(us) - us[k].balance + b
    decreases |us|
  {
    var m := |us| - 1;
    var t := us[k := us[k].(balance := b)];
    assert t[..m] == if k < m then us[..m][k := us[k].(balance := b)] else us[..m];
    if k < m {
      TotalBalanceUpdate(us[..m], k, b);
    }
  }

  /**
   * Crediting moves the sum of all balances by exactly `amount` when some
   * user has the id, and not at all otherwise.
   */
  lemma CreditTotal(us: seq<User>, id: string, amount: real)
    ensures TotalBalance(Credit(us, id, amount))
         == TotalBalance(us) + (if FindIndex(us, KeyIs(USER_ID, id)) >= 0 then amount else 0.0)
  {
    var i := FindIndex(us, KeyIs(USER_ID, id));
    CreditAt(us, id, amount);
    if i >= 0 {
      TotalBalanceUpdate(us, i, us[i].balance + amount);
    }
  }

  /** Crediting changes no id, so the lookup of any id still lands on the same index. */
  lemma CreditKeepsIds(us: seq<User>, id: string, amount: real)
    ensures forall j | 0 <= j < |us| :: Credit(us, id, amount)[j].id == us[j].id
  {
    CreditAt(us, id, amount);
  }

  /** Credit updates the record at the index the lookup reports. */
  lemma CreditAt(us: seq<User>, id: string, amount: real)
    ensures var i := FindIndex(us, KeyIs(USER_ID, id));
            Credit(us, id, amount) == if i < 0 then us else us[i := us[i].(balance := us[i].balance + amount)]
  {
  }

  /** The user found by the id after crediting is the old record with only its balance moved. */
  lemma CreditFind(us: seq<User>, id: string, amount: real)
    ensures var found := Find(us, KeyIs(USER_ID, id));
      Find(Credit(us, id, amount), KeyIs(USER_ID, id))
        == if found.Some? then Some(found.value.(balance := found.value.balance + amount)) else None
  {
    var p := KeyIs(USER_ID, id);
    var i := FindIndex(us, p);
    var r := Credit(us, id, amount);
    CreditKeepsIds(us, id, amount);
    if i >= 0 {
      assert FindIndex(r, p) == i;
    }
  }

  /** Crediting one user leaves the lookup of every other id as it was. */
  lemma CreditFindOther(us: seq<User>, id: string, amount: real, other: string)
    requires other != id
    ensures Find(Credit(us, id, amount), KeyIs(USER_ID, other)) == Find(us, KeyIs(USER_ID, other))
  {
    var r := Credit(us, id, amount);
    CreditKeepsIds(us, id, amount);
    assert forall j | 0 <= j < |us| && us[j].id == other :: r[j] == us[j];
    var k := FindIndex(us, KeyIs(USER_ID, other));
    assert FindIndex(r, KeyIs(USER_ID, other)) == k;
  }

  /**
   * getUserBets returns each stored bet of the user as many times as it is
   * stored (saveBet does not reject duplicates), and no other bet.
   */
  lemma UserBetsCounts(store: Store, userId: string)
    ensures forall b: Bet :: multiset(store.GetUserBets(userId))[b]
                             == if b.userId == userId then multiset(store.GetBets())[b] else 0
  {
    FilterCountsAll(store.GetBets(), PlacedBy(userId));
  }

  /**
   * getUserBets keeps the stored order: for any split of the stored bets, the
   * user's bets from the first part come before those from the second.
   */
  lemma UserBetsInOrder(store: Store, userId: string, a: seq<Bet>, b: seq<Bet>)
    requires store.GetBets() == a + b
    ensures store.GetUserBets(userId) == Filter(a, PlacedBy(userId)) + Filter(b, PlacedBy(userId))
  {
    FilterAppend(a, b, PlacedBy(userId));
  }

  /** Whether no two votes share a (user, election) pair: one person, one vote. */
  ghost predicate OneVotePerElection(vs: seq<Vote>) {
    forall i, j | 0 <= i < j < |vs| :: !(vs[i].userId == vs[j].userId && vs[i].electionId == vs[j].electionId)
  }

  /** `counts[c] = (counts[c] || 0) + 1`, the body of the counting loop. */
  method Increment(counts: seq<CandidateCount>, c: string) returns (next: seq<CandidateCount>)
    ensures next == Bump(counts, c)
    ensures CountOf(next, c) == CountOf(counts, c) + 1
  {
    var k := FindIndex(counts, KeyIs(CANDIDATE_ID, c));
    BumpAt(counts, c);
    BumpCount(counts, c, c);
    if k >= 0 {
      next := counts[k := CandidateCount(c, counts[k].votes + 1)];
    } else {
      next := counts + [CandidateCount(c, 1)];
    }
  }

  class Store {
    var users: Option<seq<User>>
    var events: Option<seq<Event>>
    var bets: Option<seq<Bet>>
    var elections: Option<seq<Election>>
    var votes: Option<seq<Vote>>
    /** The session key `currentUserId`. */
    var currentUserId: Option<string>
    /** The `language` preference key written by the translation provider. */
    var language: Option<string>

    /** A browser profile in which nothing has been stored yet. */
    constructor ()
      ensures users == None && events == None && bets == None && elections == None && votes == None
      ensures currentUserId == None && language == None
    {
      users, events, bets, elections, votes := None, None, None, None, None;
      currentUserId, language := None, None;
    }

    // The getters read `[]` when the key is absent.

    function GetUsers(): (r: seq<User>)
      reads this
      ensures users.None? ==> r == []
      ensures users.Some? ==> r == users.value
    {
      if users.Some? then users.value else []
    }

    function GetEvents(): (r: seq<Event>)
      reads this
      ensures events.None? ==> r == []
      ensures events.Some? ==> r == events.value
    {
      if events.Some? then events.value else []
    }

    function GetBets(): (r: seq<Bet>)
      reads this
      ensures bets.None? ==> r == []
      ensures bets.Some? ==> r == bets.value
    {
      if bets.Some? then bets.value else []
    }

    function GetElections(): (r: seq<Election>)
      reads this
      ensures elections.None? ==> r == []
      ensures elections.Some? ==> r == elections.value
    {
      if elections.Some? then elections.value else []
    }

    function GetVotes(): (r: seq<Vote>)
      reads this
      ensures votes.None? ==> r == []
      ensures votes.Some? ==> r == votes.value
    {
      if votes.Some? then votes.value else []
    }

    /** The first stored user with the id, or None. */
    function GetUser(id: string): (r: Option<User>)
      reads this
      ensures r.Some? ==> r.value in GetUsers() && r.value.id == id
      ensures r.None? <==> forall j | 0 <= j < |GetUsers()| :: GetUsers()[j].id != id
    {
      Find(GetUsers(), KeyIs(USER_ID, id))
    }

    /** The first stored user with the e-mail address, or None. */
    function GetUserByEmail(email: string): (r: Option<User>)
      reads this
      ensures r.Some? ==> r.value in GetUsers() && r.value.email == email
      ensures r.None? <==> forall j | 0 <= j < |GetUsers()| :: GetUsers()[j].email != email
    {
      Find(GetUsers(), KeyIs(USER_EMAIL, email))
    }

    function GetEvent(id: string): (r: Option<Event>)
      reads this
      ensures r.Some? ==> r.value in GetEvents() && r.value.id == id
      ensures r.None? <==> forall j | 0 <= j < |GetEvents()| :: GetEvents()[j].id != id
    {
      Find(GetEvents(), KeyIs(EVENT_ID, id))
    }

    function GetElection(id: string): (r: Option<Election>)
      reads this
      ensures r.Some? ==> r.value in GetElections() && r.value.id == id
      ensures r.None? <==> forall j | 0 <= j < |GetElections()| :: GetElections()[j].id != id
    {
      Find(GetElections(), KeyIs(ELECTION_ID, id))
    }

    /** The bets placed by the user, in stored order. */
    function GetUserBets(userId: string): (r: seq<Bet>)
      reads this
      ensures forall i | 0 <= i < |r| :: r[i] in GetBets() && r[i].userId == userId
      ensures forall i | 0 <= i < |GetBets()| && GetBets()[i].userId == userId :: GetBets()[i] in r
    {
      Filter(GetBets(), PlacedBy(userId))
    }

    /** A vote cast by the user in the election, or None when there is none. */
    function GetUserVoteForElection(userId: string, electionId: string): (r: Option<Vote>)
      reads this
      ensures r.Some? ==> r.value in GetVotes() && r.value.userId == userId && r.value.electionId == electionId
      ensures r.None? <==> forall j | 0 <= j < |GetVotes()| :: !(GetVotes()[j].userId == userId && GetVotes()[j].electionId == electionId)
    {
      Find(GetVotes(), CastBy(userId, electionId))
    }

    /**
     * The logged-in user: None when the session key is absent or empty, or
     * names no stored user.
     */
    function GetCurrentUser(): (r: Option<User>)
      reads this
      ensures currentUserId.None? ==> r.None?
      ensures currentUserId == Some("") ==> r.None?
      ensures currentUserId.Some? && currentUserId.value != "" ==> r == GetUser(currentUserId.value)
      ensures r.Some? ==> r.value in GetUsers() && currentUserId == Some(r.value.id)
    {
      if currentUserId.Some? && currentUserId.value != "" then GetUser(currentUserId.value) else None
    }

    /** getVoteCountsForElection: counts the election's votes by candidate in one pass. */
    method GetVoteCountsForElection(electionId: string) returns (counts: seq<CandidateCount>)
      ensures counts == Tally(GetVotes(), electionId)
    {
      var mine := Filter(GetVotes(), InElection(electionId));
      counts := [];
      var i := 0;
      while i < |mine|
        invariant 0 <= i <= |mine|
        invariant counts == CountByCandidate(mine[..i])
      {
        var c := mine[i].candidateId;
        counts := Increment(counts, c);
        CountByCandidateStep(mine, i);
        i := i + 1;
      }
      assert mine[..i] == mine;
    }

    /** saveUser: replaces the first user with the same id, or appends. */
    method SaveUser(user: User)
      modifies this`users
      ensures users == Some(Upsert(old(GetUsers()), user, USER_ID))
      ensures GetUser(user.id) == Some(user)
      ensures forall id | id != user.id :: GetUser(id) == old(GetUser(id))
    {
      var all := GetUsers();
      var index := FindIndex(all, KeyIs(USER_ID, user.id));
      if index >= 0 {
        all := all[index := user];
      } else {
        all := all + [user];
      }
      users := Some(all);
      FindAfterUpsert(old(GetUsers()), user, USER_ID);
      forall id | id != user.id ensures GetUser(id) == old(GetUser(id)) {
        FindOtherAfterUpsert(old(GetUsers()), user, USER_ID, id);
      }
    }

    /**
     * updateUserBalance: adds `amount` to the first user with the id (see
     * CreditFind, CreditFindOther and CreditTotal for what that means); writes
     * nothing when there is none. Nothing keeps the balance non-negative.
     */
    method UpdateUserBalance(userId: string, amount: real)
      modifies this`users
      ensures users == if old(GetUser(userId)).Some? then Some(Credit(old(GetUsers()), userId, amount)) else old(users)
    {
      var all := GetUsers();
      var index := FindIndex(all, KeyIs(USER_ID, userId));
      if index >= 0 {
        all := all[index := all[index].(balance := all[index].balance + amount)];
        users := Some(all);
      }
    }

    /** saveEvent: replaces the first event with the same id, or appends. */
    method SaveEvent(event: Event)
      modifies this`events
      ensures events == Some(Upsert(old(GetEvents()), event, EVENT_ID))
      ensures GetEvent(event.id) == Some(event)
      ensures forall id | id != event.id :: GetEvent(id) == old(GetEvent(id))
    {
      var all := GetEvents();
      var index := FindIndex(all, KeyIs(EVENT_ID, event.id));
      if index >= 0 {
        all := all[index := event];
      } else {
        all := all + [event];
      }
      events := Some(all);
      FindAfterUpsert(old(GetEvents()), event, EVENT_ID);
      forall id | id != event.id ensures GetEvent(id) == old(GetEvent(id)) {
        FindOtherAfterUpsert(old(GetEvents()), event, EVENT_ID, id);
      }
    }

    /** saveBet: appends; a duplicate id is not rejected. */
    method SaveBet(bet: Bet)
      modifies this`bets
      ensures bets == Some(old(GetBets()) + [bet])
      ensures GetUserBets(bet.userId) == old(GetUserBets(bet.userId)) + [bet]
      ensures forall u | u != bet.userId :: GetUserBets(u) == old(GetUserBets(u))
    {
      var all := GetBets();
      all := all + [bet];
      bets := Some(all);
      forall u ensures GetUserBets(u) == old(GetUserBets(u)) + (if u == bet.userId then [bet] else []) {
        FilterAppend(old(GetBets()), [bet], PlacedBy(u));
        assert [bet][1..] == [];
      }
    }

    /** saveElection: replaces the first election with the same id, or appends. */
    method SaveElection(election: Election)
      modifies this`elections
      ensures elections == Some(Upsert(old(GetElections()), election, ELECTION_ID))
      ensures GetElection(election.id) == Some(election)
      ensures forall id | id != election.id :: GetElection(id) == old(GetElection(id))
    {
      var all := GetElections();
      var index := FindIndex(all, KeyIs(ELECTION_ID, election.id));
      if index >= 0 {
        all := all[index := election];
      } else {
        all := all + [election];
      }
      elections := Some(all);
      FindAfterUpsert(old(GetElections()), election, ELECTION_ID);
      forall id | id != election.id ensures GetElection(id) == old(GetElection(id)) {
        FindOtherAfterUpsert(old(GetElections()), election, ELECTION_ID, id);
      }
    }

    /**
     * saveVote: appends; a second vote by the same user in the same election
     * is not rejected here. The voter counts as having voted afterwards.
     */
    method SaveVote(vote: Vote)
      modifies this`votes
      ensures votes == Some(old(GetVotes()) + [vote])
      ensures GetUserVoteForElection(vote.userId, vote.electionId).Some?
    {
      var all := GetVotes();
      all := all + [vote];
      votes := Some(all);
      assert GetVotes()[|GetVotes()| - 1] == vote;
    }

    /** setCurrentUser: a non-empty id is stored; null (or "") removes the key. */
    method SetCurrentUser(userId: Option<string>)
      modifies this`currentUserId
      ensures currentUserId == if userId.Some? && userId.value != "" then userId else None
      ensures userId.Some? && userId.value != "" ==> GetCurrentUser() == GetUser(userId.value)
      ensures userId.None? ==> GetCurrentUser().None?
    {
      if userId.Some? && userId.value != "" {
        currentUserId := userId;
      } else {
        currentUserId := None;
      }
    }

    /**
     * initializeData: seeds each absent collection (bets and votes empty) and
     * leaves every present one as it is.
     */
    method InitializeData(now: int)
      modifies this`users, this`events, this`elections, this`bets, this`votes
      ensures users == if old(users).None? then Some(StorageSeed.DefaultUsers(now)) else old(users)
      ensures events == if old(events).None? then Some(StorageSeed.DefaultEvents(now)) else old(events)
      ensures elections == if old(elections).None? then Some(StorageSeed.DefaultElections(now)) else old(elections)
      ensures bets == if old(bets).None? then Some([]) else old(bets)
      ensures votes == if old(votes).None? then Some([]) else old(votes)
    {
      if users.None? {
        users := Some(StorageSeed.DefaultUsers(now));
      }
      if events.None? {
        events := Some(StorageSeed.DefaultEvents(now));
      }
      if elections.None? {
        elections := Some(StorageSeed.DefaultElections(now));
      }
      if bets.None? {
        bets := Some([]);
      }
      if votes.None? {
        votes := Some([]);
      }
    }
  }
}
