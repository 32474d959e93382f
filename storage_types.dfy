/**
 * The records the ledger stores (users, events, bets, elections with their
 * candidates, votes). Timestamps are integers (milliseconds since the epoch); the ISO-8601 text
 * the browser stores is not modelled. Money and odds are reals.
 */
module StorageTypes {
  import opened Wrappers

  datatype Role = Student | Admin

  datatype User = User(
    id: string,
    name: string,
    email: string,
    studentId: string,
    role: Role,
    balance: real,
    age: int,
    verified: bool,
    createdAt: int)

  datatype EventStatus = Upcoming | Live | Finished

  /** The three outcomes a bet can be placed on. */
  datatype Selection = Home | Draw | Away

  datatype Odds = Odds(home: real, draw: real, away: real) {
    /** `odds[selection]` */
    function Of(s: Selection): real {
      match s
      case Home => home
      case Draw => draw
      case Away => away
    }
  }

  datatype Score = Score(home: int, away: int)

  datatype Event = Event(
    id: string,
    tournament: string,
    homeTeam: string,
    awayTeam: string,
    startAt: int,
    status: EventStatus,
    odds: Odds,
    score: Option<Score>)

  datatype BetStatus = Pending | Won | Lost | Voided

  datatype Bet = Bet(
    id: string,
    userId: string,
    matchId: string,
    selection: Selection,
    stake: real,
    payout: int,
    status: BetStatus,
    placedAt: int)

  datatype Candidate = Candidate(
    id: string,
    name: string,
    manifesto: string,
    photo: string,
    color: Option<string>,
    colorIndex: Option<int>)

  datatype ElectionStatus = Upcoming | Active | Closed

  datatype Election = Election(
    id: string,
    title: string,
    candidates: seq<Candidate>,
    startAt: int,
    endAt: int,
    status: ElectionStatus,
    eligibility: string)

  datatype Vote = Vote(
    id: string,
    electionId: string,
    userId: string,
    candidateId: string,
    votedAt: int)

  // The fields by which records are looked up.
  const USER_ID: User -> string := (u: User) => u.id
  const USER_EMAIL: User -> string := (u: User) => u.email
  const EVENT_ID: Event -> string := (e: Event) => e.id
  const ELECTION_ID: Election -> string := (e: Election) => e.id

  function DigitChar(d: nat): (c: char)
    requires d < 10
    ensures '0' <= c <= '9'
    ensures c as int - '0' as int == d
  {
    ('0' as int + d) as char
  }

  /** The number a text of decimal digits spells, most significant digit first. */
  function DigitsValue(s: string): nat
    requires forall i | 0 <= i < |s| :: '0' <= s[i] <= '9'
  {
    if s == [] then 0 else DigitsValue(s[..|s| - 1]) * 10 + (s[|s| - 1] as int - '0' as int)
  }

  /** The decimal text of a non-negative number, as `${Date.now()}` renders it. */
  function DecimalText(n: nat): (s: string)
    ensures 1 <= |s|
    ensures forall i | 0 <= i < |s| :: '0' <= s[i] <= '9'
    ensures n < 10 <==> |s| == 1
    ensures DigitsValue(s) == n
  {
    if n < 10 then
      [DigitChar(n)]
    else
      var prefix := DecimalText(n / 10);
      var s := prefix + [DigitChar(n % 10)];
      assert s[..|s| - 1] == prefix;
      s
  }

  /**
   * Two ids built from the same prefix and clock readings are equal only when
   * the readings are: ids collide exactly when the clock gives the same value.
   */
  lemma {:induction false} StampedIdsCollide(prefix: string, a: nat, b: nat)
    ensures prefix + DecimalText(a) == prefix + DecimalText(b) <==> a == b
  {
    if prefix + DecimalText(a) == prefix + DecimalText(b) {
      assert DecimalText(a) == (prefix + DecimalText(a))[|prefix|..];
      assert DecimalText(b) == (prefix + DecimalText(b))[|prefix|..];
    }
  }
}
