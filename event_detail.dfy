/**
 * The bet slip of the event page: choosing an outcome, entering and checking
 * the amount, and confirming, which records a pending bet and debits the
 * stake. The page's state hooks (selectedBet, betAmount, showConfirm) are the
 * fields of BetSlip; `currentUser` and `event` are what the page read from
 * the store when it rendered, and are passed to the handlers. Odds and
 * amounts are reals, an idealisation of IEEE doubles.
 */
module EventDetail {
  import opened Wrappers
  import opened StorageTypes
  import opened Storage

  /** What parseFloat makes of the amount field: NaN (the empty field included), or a number. */
  datatype Amount = NotANumber | Number(value: real)

  /** The failures the page reports in an error toast. */
  datatype BetError = EventFinished | InvalidAmount | InsufficientBalance

  /** What handlePlaceBet decides: nothing without a user, an error toast, or the dialog. */
  datatype PlaceDecision = Ignored | Rejected(error: BetError) | Accepted

  /** getOdds: the odds of the chosen outcome, 0 while none is chosen. */
  function GetOdds(event: Event, selectedBet: Option<Selection>): (r: real)
    ensures selectedBet.None? ==> r == 0.0
    ensures selectedBet.Some? ==> r == event.odds.Of(selectedBet.value)
  {
    if selectedBet.None? then 0.0 else event.odds.Of(selectedBet.value)
  }

  /** `parseFloat(betAmount) || 0` */
  function AmountOrZero(a: Amount): real {
    if a.Number? then a.value else 0.0
  }

  /** getPotentialPayout: the stake times the odds, rounded down; an unparseable amount pays 0. */
  function GetPotentialPayout(event: Event, selectedBet: Option<Selection>, betAmount: Amount): (r: int)
    ensures r as real <= AmountOrZero(betAmount) * GetOdds(event, selectedBet) < r as real + 1.0
    ensures betAmount.NotANumber? || selectedBet.None? ==> r == 0
    ensures AmountOrZero(betAmount) >= 0.0 && GetOdds(event, selectedBet) >= 0.0 ==> r >= 0
  {
    var x := AmountOrZero(betAmount) * GetOdds(event, selectedBet);
    assert AmountOrZero(betAmount) >= 0.0 && GetOdds(event, selectedBet) >= 0.0 ==> x >= 0.0;
    x.Floor
  }

  /** The amount passes the first check of handlePlaceBet: a number above zero. */
  predicate ValidAmount(a: Amount) {
    a.Number? && a.value > 0.0
  }

  /**
   * The checks of handlePlaceBet, in order: no user, then an amount that is
   * NaN or not above zero, then an amount above the balance. An amount equal
   * to the balance is accepted; the selection is not looked at.
   */
  function PlaceBetDecision(currentUser: Option<User>, betAmount: Amount): (r: PlaceDecision)
    ensures r == Ignored <==> currentUser.None?
    ensures r == Rejected(InvalidAmount) <==> currentUser.Some? && !ValidAmount(betAmount)
    ensures r == Rejected(InsufficientBalance) <==>
              currentUser.Some? && ValidAmount(betAmount) && betAmount.value > currentUser.value.balance
    ensures r == Accepted <==>
              currentUser.Some? && ValidAmount(betAmount) && betAmount.value <= currentUser.value.balance
    ensures r != Rejected(EventFinished)
  {
    if currentUser.None? then Ignored
    else if !ValidAmount(betAmount) then Rejected(InvalidAmount)
    else if betAmount.value > currentUser.value.balance then Rejected(InsufficientBalance)
    else Accepted
  }

  /** The bet confirmBet records; the id is `b_` followed by the clock reading. */
  function NewBet(user: User, event: Event, selection: Selection, stake: real, now: nat): (b: Bet)
    ensures b.userId == user.id && b.matchId == event.id && b.selection == selection
    ensures b.stake == stake && b.status == Pending && b.placedAt == now
    ensures b.payout as real <= stake * event.odds.Of(selection) < b.payout as real + 1.0
  {
    Bet("b_" + DecimalText(now), user.id, event.id, selection,
        stake, GetPotentialPayout(event, Some(selection), Number(stake)), Pending, now)
  }

  /**
   * The two writes of confirmBet, one after the other: the bet is appended,
   * then its stake is debited from the first user with its user id (no write
   * when there is none). Nothing ties the two together.
   */
  method RecordBet(store: Store, bet: Bet)
    modifies store`bets, store`users
    ensures store.bets == Some(old(store.GetBets()) + [bet])
    ensures store.users == if old(store.GetUser(bet.userId)).Some?
                           then Some(Credit(old(store.GetUsers()), bet.userId, -bet.stake))
                           else old(store.users)
  {
    store.SaveBet(bet);
    store.UpdateUserBalance(bet.userId, -bet.stake);
  }

  /** The page state of the bet slip. */
  class BetSlip {
    var selectedBet: Option<Selection>
    var betAmount: Amount
    var showConfirm: bool

    /** No selection, an empty amount field, the dialog closed. */
    constructor ()
      ensures selectedBet.None? && betAmount.NotANumber? && !showConfirm
    {
      selectedBet := None;
      betAmount := NotANumber;
      showConfirm := false;
    }

    /** While the dialog is open, the amount is a number above zero and within `balance`. */
    predicate ReadyToConfirm(balance: real)
      reads this
    {
      showConfirm ==> ValidAmount(betAmount) && betAmount.value <= balance
    }

    /** handleBetClick: a finished event keeps the selection and reports an error. */
    method HandleBetClick(event: Event, selection: Selection) returns (error: Option<BetError>)
      modifies this`selectedBet
      ensures event.status == Finished ==> error == Some(EventFinished) && selectedBet == old(selectedBet)
      ensures event.status != Finished ==> error.None? && selectedBet == Some(selection)
    {
      if event.status == Finished {
        return Some(EventFinished);
      }
      selectedBet := Some(selection);
      error := None;
    }

    /** The amount field's onChange. */
    method EnterAmount(amount: Amount)
      modifies this`betAmount
      ensures betAmount == amount
    {
      betAmount := amount;
    }

    /**
     * handlePlaceBet: opens the dialog when the checks pass, and keeps an
     * open dialog over an accepted amount.
     */
    method HandlePlaceBet(currentUser: Option<User>) returns (error: Option<BetError>)
      modifies this`showConfirm
      ensures showConfirm == (old(showConfirm) || PlaceBetDecision(currentUser, betAmount) == Accepted)
      ensures error == if PlaceBetDecision(currentUser, betAmount).Rejected?
                       then Some(PlaceBetDecision(currentUser, betAmount).error) else None
      ensures currentUser.Some? && old(ReadyToConfirm(currentUser.value.balance)) ==>
                ReadyToConfirm(currentUser.value.balance)
    {
      var decision := PlaceBetDecision(currentUser, betAmount);
      if decision.Rejected? {
        return Some(decision.error);
      }
      if decision == Accepted {
        showConfirm := true;
      }
      error := None;
    }

    /** The dialog's cancel button. */
    method Cancel()
      modifies this`showConfirm
      ensures !showConfirm
    {
      showConfirm := false;
    }

    /**
     * confirmBet: without a user or a selection nothing happens. Otherwise one
     * pending bet is appended, then the stake is debited from the user, two
     * separate writes, and the slip is reset.
     */
    method ConfirmBet(store: Store, currentUser: Option<User>, event: Event, now: nat) returns (placed: Option<Bet>)
      requires currentUser.Some? && selectedBet.Some? ==> betAmount.Number?
      modifies this, store`bets, store`users
      ensures currentUser.None? || old(selectedBet).None? ==>
                && placed.None? && store.bets == old(store.bets) && store.users == old(store.users)
                && selectedBet == old(selectedBet) && betAmount == old(betAmount) && showConfirm == old(showConfirm)
      ensures currentUser.Some? && old(selectedBet).Some? ==>
                var user := currentUser.value;
                var stake := old(betAmount).value;
                && placed == Some(NewBet(user, event, old(selectedBet).value, stake, now))
                && store.bets == Some(old(store.GetBets()) + [placed.value])
                && store.users == (if old(store.GetUser(user.id)).Some?
                                   then Some(Credit(old(store.GetUsers()), user.id, -stake))
                                   else old(store.users))
                && selectedBet.None? && betAmount.NotANumber? && !showConfirm
    {
      if currentUser.None? || selectedBet.None? {
        return None;
      }
      var user := currentUser.value;
      var amount := betAmount.value;
      var bet := Bet("b_" + DecimalText(now), user.id, event.id, selectedBet.value,
                     amount, GetPotentialPayout(event, selectedBet, betAmount), Pending, now);
      RecordBet(store, bet);
      showConfirm := false;
      selectedBet := None;
      betAmount := NotANumber;
      placed := Some(bet);
    }
  }
}
