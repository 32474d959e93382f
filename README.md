# Campus ledger model

This is a Dafny model of the browser-side ledger of the FITMAT campus hub, and of the page handlers that validate input and then write to it.

## What is modelled

**The ledger store** (`Storage.Store`) models local storage.
- Each key is a field of the class: `users`, `events`, `bets`, `elections`, `votes`, the session key `currentUserId` and the `language` preference. `None` stands for a key that is absent.
- The getters read an absent key as an empty sequence.
- Each writer reads the whole collection, changes it in memory and writes it back. Its `modifies` frame names only the one key it writes, so the frame itself says that every other key is unchanged.
- Users, events and elections are upserted by id. Bets and votes are append-only.
- First-run seeding writes only the keys that are absent.

**The JavaScript array operations** are in `ArrayQueries`: `findIndex`, `find`, `filter`, and the find-then-replace-or-push upsert.

**The vote-count object** that `getVoteCountsForElection` builds is in `VoteTally`.
- It is an insertion-ordered list of (candidate, count) entries, which is how a JavaScript object keyed by non-numeric strings behaves.
- The counting loop is a method proved against the function `Tally`.
- The lemmas state what `Tally` means.

**The pages:**
- `EventDetail.BetSlip` holds the bet slip's state hooks.
- `Voting.Ballot` holds the ballot's state hooks.
- `Signup.SignupPage` holds the signup form's `loading` hook.
- Each page's handlers are methods on that class. The pure decisions they take are functions: `PlaceBetDecision`, `HasVoted` and `Validate`.
- The user and the event that a page read from the store when it rendered are passed to its handlers as parameters.

**Translation** is in `I18n`: the table, the lookup `t` with its fallback to the key, and the restore and write-back of the language.

**Two end-to-end sessions** against a freshly seeded store are in `Scenarios`: a bet on m_002, and a vote followed by a refused second vote.

Amounts, odds and balances are reals, an idealisation of IEEE doubles. `parseFloat`'s result is the datatype `Amount`, either `NotANumber` or `Number(value)`. Timestamps are integers. The clock reading `now` is a parameter; ids are built from it and are not assumed unique.

## Model

| member | source | states |
|---|---|---|
| ArrayQueries.FindIndex | src/lib/storage.ts:228 | the result is -1 exactly when no element matches; otherwise it is the first matching index |
| ArrayQueries.Find | src/lib/storage.ts:218-221 | the result is a matching element of the sequence, the first one; it is None exactly when no element matches |
| ArrayQueries.Filter | src/lib/storage.ts:264-267 | the result holds only elements of the input that pass the predicate, and every element that passes is in it |
| ArrayQueries.FilterCounts | src/lib/storage.ts:264-267 | the filter holds each passing element exactly as many times as the input does, and no other element; with FilterAppend this fixes the result as the passing elements in stored order |
| ArrayQueries.FilterCountsAll | src/lib/storage.ts:264-267 | FilterCounts for every element at once |
| ArrayQueries.FilterAppend | src/lib/storage.ts:264-272 | filtering distributes over concatenation, so filtering after an append is the old filter plus the new element when it passes |
| ArrayQueries.Upsert | src/lib/storage.ts:226-235 | with no record of the key, x is appended; otherwise the first record with the key is replaced by x, the length is unchanged and every other index is untouched |
| ArrayQueries.FindAfterUpsert | src/lib/storage.ts:226-235 | after an upsert, a lookup by the key finds exactly the saved record |
| ArrayQueries.FindOtherAfterUpsert | src/lib/storage.ts:226-235 | an upsert leaves the lookup of every other key unchanged |
| StorageTypes.DecimalText | src/pages/EventDetail.tsx:116 | the text of `Date.now()` inside an id: non-empty decimal digits whose value (DigitsValue) is exactly the clock reading, a single digit exactly below 10 |
| StorageTypes.StampedIdsCollide | src/pages/EventDetail.tsx:116 | two ids with the same prefix (`b_`, `v_`, `u_`) and clock readings are equal exactly when the readings are equal, so ids collide only when the clock repeats |
| StorageSeed.DefaultUsers | src/lib/storage.ts:74-109 | the seeded users (one admin, two students) have distinct ids and distinct e-mails |
| StorageSeed.DefaultEvents | src/lib/storage.ts:113-162 | the five seeded events have distinct ids, and every one of their odds is above 1 |
| VoteTally.CountOf | src/lib/storage.ts:306 | `counts[c] \|\| 0`: zero when c has no entry, otherwise the votes of c's first entry |
| VoteTally.Total | src/pages/Voting.tsx:49 | the `reduce` over the counts: no single count exceeds the sum (TallyMeaning gives the sum's value) |
| VoteTally.BumpCount | src/lib/storage.ts:306 | one more vote for c adds one to c's count and leaves every other candidate's count as it was |
| VoteTally.BumpTotal | src/lib/storage.ts:306 | one more vote adds exactly one to the sum of the counts |
| VoteTally.BumpWellFormed | src/lib/storage.ts:306 | counting keeps one entry per candidate, and no entry with zero votes |
| VoteTally.CountByCandidateFacts | src/lib/storage.ts:305-307 | after counting a sequence of votes, each candidate's count is its number of votes, the counts sum to the number of votes, and the entries are distinct and non-zero |
| VoteTally.FilterTwice | src/lib/storage.ts:305 | keeping one election's votes and then one candidate's keeps exactly that candidate's votes in that election |
| VoteTally.TallyMeaning | src/lib/storage.ts:302-309 | each candidate's count is its number of votes in the election, and votes of other elections are ignored; the counts sum to the election's number of votes; entries are distinct and non-zero |
| VoteTally.EntryIffCounted | src/lib/storage.ts:304-307 | in well-formed counts, a candidate has an entry exactly when its count is positive |
| VoteTally.FilterNonEmpty | src/lib/storage.ts:305 | a filter is non-empty exactly when some element passes it |
| VoteTally.TallyEntries | src/lib/storage.ts:302-309 | a candidate has an entry exactly when it received a vote in that election, so candidates with zero votes have none |
| Storage.Credit | src/lib/storage.ts:236-243 | crediting keeps the length of the user list, and is the identity when no user has the id |
| Storage.CreditTotal | src/lib/storage.ts:236-243 | the sum of all balances moves by exactly `amount` when some user has the id, and not at all otherwise |
| Storage.CreditKeepsIds | src/lib/storage.ts:236-243 | crediting changes no user's id |
| Storage.CreditFind | src/lib/storage.ts:236-243 | the user found by the id afterwards is the old record with only its balance moved by `amount`; there is no bound, so a balance may go negative |
| Storage.CreditFindOther | src/lib/storage.ts:236-243 | the lookup of every other id is unchanged |
| Storage.Increment | src/lib/storage.ts:306 | the loop body `counts[c] = (counts[c] \|\| 0) + 1` equals the specification step Bump, and raises c's count by one |
| Storage.Store.GetUsers | src/lib/storage.ts:217 | an absent `users` key reads as the empty sequence, a present one as its value |
| Storage.Store.GetEvents | src/lib/storage.ts:246 | an absent `events` key reads as the empty sequence |
| Storage.Store.GetBets | src/lib/storage.ts:263 | an absent `bets` key reads as the empty sequence |
| Storage.Store.GetElections | src/lib/storage.ts:275 | an absent `elections` key reads as the empty sequence |
| Storage.Store.GetVotes | src/lib/storage.ts:292 | an absent `votes` key reads as the empty sequence |
| Storage.Store.GetUser | src/lib/storage.ts:218-221 | the result is a stored user with that id; it is None exactly when no stored user has the id |
| Storage.Store.GetUserByEmail | src/lib/storage.ts:222-225 | the result is a stored user with that e-mail; it is None exactly when no stored user has it |
| Storage.Store.GetEvent | src/lib/storage.ts:247-250 | the result is a stored event with that id; it is None exactly when there is none |
| Storage.Store.GetElection | src/lib/storage.ts:276-279 | the result is a stored election with that id; it is None exactly when there is none |
| Storage.Store.GetUserBets | src/lib/storage.ts:264-267 | every bet returned is a stored bet of that user, and every stored bet of that user is returned; multiplicity and order are in UserBetsCounts and UserBetsInOrder |
| Storage.UserBetsCounts | src/lib/storage.ts:264-267 | the user's bets hold each stored bet of that user as many times as it is stored (saveBet keeps duplicates), and no other bet |
| Storage.UserBetsInOrder | src/lib/storage.ts:264-267 | stored order is kept: for any split of the stored bets, the user's bets of the first part come before those of the second |
| Storage.Store.GetUserVoteForElection | src/lib/storage.ts:293-296 | the result is a stored vote with both the user and the election; it is None exactly when no such vote exists |
| Storage.Store.GetCurrentUser | src/lib/storage.ts:312-315 | None when the session key is absent or empty, otherwise the stored user it names (None if there is none); a result is always a stored user whose id is the session key |
| Storage.Store.GetVoteCountsForElection | src/lib/storage.ts:302-309 | the counting loop produces exactly `Tally` of the stored votes for the election (whose meaning TallyMeaning states) |
| Storage.Store.SaveUser | src/lib/storage.ts:226-235 | `users` becomes the upsert of the old list; the user's id now finds the user; every other id finds what it found before; no other key changes |
| Storage.Store.UpdateUserBalance | src/lib/storage.ts:236-243 | when the id is stored, `users` becomes the credited list; otherwise nothing is written; no other key changes |
| Storage.Store.SaveEvent | src/lib/storage.ts:251-260 | `events` becomes the upsert of the old list; the event's id now finds it; every other id finds what it found before |
| Storage.Store.SaveBet | src/lib/storage.ts:268-272 | the bet is appended, with no duplicate check; the user's bets gain it at the end; every other user's bets are unchanged |
| Storage.Store.SaveElection | src/lib/storage.ts:280-289 | `elections` becomes the upsert of the old list; the election's id now finds it; every other id finds what it found before |
| Storage.Store.SaveVote | src/lib/storage.ts:297-301 | the vote is appended, with no check for a duplicate (user, election) pair; the voter then has a vote in that election |
| Storage.Store.SetCurrentUser | src/lib/storage.ts:316-322 | a non-empty id is stored and GetCurrentUser then returns the stored user with it; null or "" removes the key, and there is no current user |
| Storage.Store.InitializeData | src/lib/storage.ts:72-209 | each absent key is seeded (bets and votes with the empty sequence); each present key keeps its value |
| EventDetail.GetOdds | src/pages/EventDetail.tsx:64-67 | 0 with no selection, otherwise the odds of the selected outcome |
| EventDetail.GetPotentialPayout | src/pages/EventDetail.tsx:69-72 | the result is the floor of amount times odds: at most the product and within 1 of it; it is 0 with an unparseable amount or no selection, and non-negative for non-negative inputs |
| EventDetail.PlaceBetDecision | src/pages/EventDetail.tsx:86-108 | the checks in order, each as an if-and-only-if: no user is ignored; NaN or non-positive is an invalid amount; above the balance is insufficient; otherwise, including an amount equal to the balance, accepted; the event's status is never consulted |
| EventDetail.NewBet | src/pages/EventDetail.tsx:114-124 | the recorded bet carries the user, the event, the selection and the stake; it is pending; its payout is the floor of stake times the odds |
| EventDetail.RecordBet | src/pages/EventDetail.tsx:126-127 | the bet is appended; then the first user with the bet's user id is debited by the stake, with no write when there is none; no other key changes |
| EventDetail.BetSlip.constructor | src/pages/EventDetail.tsx:30-32 | no selection, an empty amount, and the dialog closed |
| EventDetail.BetSlip.HandleBetClick | src/pages/EventDetail.tsx:74-84 | on a finished event, the selection is unchanged and an error is reported; otherwise the outcome is selected |
| EventDetail.BetSlip.EnterAmount | src/pages/EventDetail.tsx:278 | the amount field takes the entered value |
| EventDetail.BetSlip.HandlePlaceBet | src/pages/EventDetail.tsx:86-109 | the dialog opens exactly when the decision is Accepted; a rejection reports its error and opens nothing; an open dialog stays ready to confirm |
| EventDetail.BetSlip.Cancel | src/pages/EventDetail.tsx:358 | the dialog closes |
| EventDetail.BetSlip.ConfirmBet | src/pages/EventDetail.tsx:111-137 | without a user or a selection, nothing changes. Otherwise exactly one pending bet with the floor payout is appended, the user's balance is credited by minus the stake (CreditTotal and CreditFind give the exact delta), and the slip resets |
| Voting.ActiveElections | src/pages/Voting.tsx:29-30 | exactly the stored elections whose status is active, each as many times as it is stored |
| Voting.ActiveElectionsInOrder | src/pages/Voting.tsx:30 | the active elections keep the stored order: those of a prefix come before those of the rest |
| Voting.HasVoted | src/pages/Voting.tsx:38-41 | false without a user; otherwise true exactly when a stored vote has that user and that election |
| Voting.GetTotalVotes | src/pages/Voting.tsx:47-50 | the sum of the counts equals the election's number of stored votes |
| Voting.Share | src/pages/Voting.tsx:136 | 0 when the total or the count is 0; between 0 and 100 when the count is at most the total |
| Voting.Percentage | src/pages/Voting.tsx:135-136 | the percentage beside a candidate, `counts[id] \|\| 0` as a share: 0 with no votes in all or none for the candidate, and between 0 and 100 when the count is at most the total |
| Voting.ShareMeaning | src/pages/Voting.tsx:136 | with a positive total, the share times the total is 100 times the count |
| Voting.ShareAdds | src/pages/Voting.tsx:136 | shares of one total add up like the counts they stand for |
| Voting.ShareOfWhole | src/pages/Voting.tsx:136 | the whole total is a share of 100 |
| Voting.PercentageInRange | src/pages/Voting.tsx:114-136 | every percentage shown beside a candidate of an election lies between 0 and 100, including a candidate without votes, who reads as 0 |
| Voting.PercentagesSumToHundred | src/pages/Voting.tsx:114-136 | when an election has votes, the percentages of its counted candidates add up to exactly 100 |
| Voting.ShownPercentagesSumToHundred | src/pages/Voting.tsx:134-136 | the percentages the page shows beside an election's candidates add up to exactly 100 when it has votes, its candidates have distinct ids and every candidate with a vote is listed |
| Voting.ShownSharesAdd | src/pages/Voting.tsx:134-136 | the shown percentages add up to the share of the listed candidates' summed counts |
| Voting.ShownCountsAddUp | src/pages/Voting.tsx:134-135 | when every counted candidate is listed once, the listed candidates' counts add up to the total |
| Voting.ShownCountSumSnoc | src/lib/storage.ts:306 | an entry appended for a new candidate adds its votes to the listed sum once when that candidate is listed, and not at all otherwise |
| Voting.CountOfSnoc | src/lib/storage.ts:306 | an entry appended for a new candidate adds its votes to that candidate's count only |
| Voting.ShownCountSumEmpty | src/pages/Voting.tsx:135 | with no counts, every listed candidate reads 0 |
| Voting.SharesAdd | src/pages/Voting.tsx:136 | the percentages of several entries add up to the share of the sum of their counts |
| Voting.CountsAddUp | src/pages/Voting.tsx:135 | in well-formed counts, reading each entry back through `counts[c] \|\| 0` gives the entries' total |
| Voting.EntryIsCount | src/pages/Voting.tsx:135 | in well-formed counts, `counts[c]` reads the votes of c's entry |
| Voting.NewVote | src/pages/Voting.tsx:68-74 | the vote carries the selected election and candidate, the user's id and the clock reading |
| Voting.CastKeepsOneVote | src/pages/Voting.tsx:52-76 | appending a vote to votes that hold one per user and election keeps that exactly when the pair was unused |
| Voting.RecordVote | src/lib/storage.ts:297-301 | the vote is appended and its voter has voted; votes that held one per user and election keep that exactly when the pair was unused; no other key changes |
| Voting.Ballot.constructor | src/pages/Voting.tsx:27-28 | no pending choice, and the dialog closed |
| Voting.Ballot.HandleVoteClick | src/pages/Voting.tsx:52-63 | a user who has voted is refused, and the choice and the dialog are unchanged; otherwise the choice is recorded and the dialog opens |
| Voting.Ballot.Cancel | src/pages/Voting.tsx:238 | the dialog closes and the choice stays |
| Voting.Ballot.ConfirmVote | src/pages/Voting.tsx:65-86 | without a user or a choice, nothing changes. Otherwise exactly one vote is appended and nothing else in the store changes; the user has then voted; one vote per user and election is kept exactly when the user had not voted; the ballot resets |
| Signup.EndsWith | src/pages/Signup.tsx:38 | `endsWith`: true exactly when some suffix of the string equals the given one |
| Signup.Validate | src/pages/Signup.tsx:29-59 | the first failing check decides, in the order age confirmation, then school address, then address taken; no error exactly when all three pass |
| Signup.NewStudent | src/pages/Signup.tsx:62-72 | the form's name, e-mail and student id; a verified student aged 18 with 1000 tokens; an id starting `u_` |
| Signup.SignupPage.constructor | src/pages/Signup.tsx:24 | `loading` starts false |
| Signup.SignupPage.HandleSignup | src/pages/Signup.tsx:26-84 | the error is Validate's. A failure leaves the store unchanged. The first two checks leave `loading` as it was; the duplicate check and success leave it false. On success the new student is upserted into `users`, which gains exactly that user when the id is new, and becomes the session user |
| I18n.Code | src/lib/i18n.tsx:3 | the stored code is `en` or `fr`, and restoring it gives back the same language |
| I18n.RestoreLanguage | src/lib/i18n.tsx:108-111 | French exactly when the saved value is `fr`; English for any value other than `en` or `fr`, or none |
| I18n.TableComplete | src/lib/i18n.tsx:5-97 | every entry of the table carries a non-empty English and a non-empty French string |
| I18n.FilledUnion | src/lib/i18n.tsx:12-97 | joining two groups whose entries are all filled gives a table whose entries are all filled |
| I18n.Translate | src/lib/i18n.tsx:117-119 | an absent key gives the key itself; a present key gives its string when that is non-empty, and the key when it is empty; a non-empty key never gives "" |
| I18n.TranslateKnownKey | src/lib/i18n.tsx:117-119 | every key in the table translates to its entry's string in either language |
| I18n.I18nProvider.constructor | src/lib/i18n.tsx:108-115 | the language is restored from the stored value, then written back under the `language` key |
| I18n.I18nProvider.SetLanguage | src/lib/i18n.tsx:113-115 | the language changes, and the new code is written under the `language` key |
| I18n.I18nProvider.T | src/lib/i18n.tsx:117-119 | a key in the table gives its string in the current language; any other key gives itself |
| Scenarios.SeededSession | src/lib/storage.ts:72-209 | seeding an empty store yields the default users and events, with no bets or votes; signing in stores the session key |
| Scenarios.SeededLookups | src/lib/storage.ts:74-162 | in the seed, u_student1 is Jane Doe and m_002 is the second event |
| Scenarios.OpenSlip | src/pages/EventDetail.tsx:74-109 | on an event that is not finished, with a balance of at least 200, picking home and a stake of 200 opens the dialog |
| Scenarios.VoteTwice | src/pages/Voting.tsx:52-86 | starting from no votes, a vote for c1 in e_001 is recorded, and a second click in e_001 is refused |
| Scenarios.SeededBet | src/pages/EventDetail.tsx:111-137 | on the seeded store, Jane Doe's 200 on home in m_002 is recorded pending with payout 420, and leaves her 1300 tokens |
| Scenarios.DoubleVote | src/pages/Voting.tsx:52-86 | on the seeded store, Jane Doe's second vote in e_001 is refused and e_001 counts one vote, for c1 |
| Scenarios.OneVoteTally | src/lib/storage.ts:302-309 | a single vote tallies as one entry with one vote |

## Left out

- Rendering, routing (`navigate`), toasts and dialogs are not modelled. The dialogs appear only as the `showConfirm` fields, and the error toasts as returned error values.
- `window.location.reload()` after a vote is left out; `ConfirmVote` resets the ballot instead.
- JSON serialisation is left out: a stored collection is a sequence of records.
- Browser storage is modelled with keys either absent or holding a well-formed collection. A key holding `""` or malformed JSON is not modelled.
- Concurrency is not modelled. Lost updates between tabs, and a crash between the two writes of `confirmBet`, are out of the model. `RecordBet` does show the two writes as separate, unlinked steps.
- IEEE doubles are left out: odds, stakes, balances and percentages are reals. The effects of rounding, and `toFixed(1)` in the display, are not modelled.
- `parseFloat` is modelled only by its result, `Amount`. How a text parses is not modelled.
- `Date.now()` and `new Date().toISOString()` are the parameter `now`: an integer, with no ISO text. Ids built from it are not assumed unique, so `HandleSignup` states the upsert that a colliding id leads to.
- EventDetail.BetSlip.ConfirmBet: the precondition requires a parseable amount whenever there is a user and a selection.
  - The source would record a bet with a NaN stake if called otherwise.
  - The dialog that calls it opens only after `handlePlaceBet` accepted a number.
- StorageSeed.DefaultCandidates and StorageSeed.DefaultElections have no contract. They are the literal seed records (src/lib/storage.ts:166-198).
- The other pages are not modelled: Login, Index, Events, Admin and Dashboard. Their logic is covered by the store queries and writers.
- The components Header, BottomNav and LanguageSwitch are not modelled. BottomNav reads a `currentUser` key that the store never writes.
- `getVoteCounts` on the voting page is only an alias of the store's counting method, so it has no member of its own.
- The translation table is in the model with all its keys and strings. Where the markup uses each key is not modelled.

Behaviour worth noting, which the model follows:

- A finished event is refused only when the outcome is clicked (`handleBetClick`). `handlePlaceBet` and `confirmBet` do not check the status again.
- `handlePlaceBet` checks the amount, then the balance.
- An election's active status is enforced only by listing active elections; `confirmVote` does not check it.
- No operation reports a missing user, event or election. A lookup that misses yields `undefined`, and a balance update for an unknown id does nothing.
- `setCurrentUser("")` removes the session key, as `setCurrentUser(null)` does.
