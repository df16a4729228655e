# Poker table and team ledger: model and proofs

This project models the decision logic of a play-money poker service and proves properties of it with Dafny 4.11:

- one hand of no-limit hold'em (`packages/shared/src/poker`): dealing, blinds, six actions, turn order, side pots,
  showdown, hand evaluation, the Fisher–Yates shuffle, the advertised legal actions and the bot that chooses among them;
- hand after hand at one table (`practice-game.service.ts`) and the room protocol before the first hand
  (`practice-room.service.ts`);
- the team ledger (`team-ledger.service.ts`): the submit/confirm/dispute protocol of one ledger hand and the greedy
  settlement of the cumulative results.

`dafny verify dfyconfig.toml` checks everything.

## How it is organised

| files | content |
|---|---|
| `Sequences` | sums, a stable sort with named comparators, duplicate-free sequences |
| `Deck`, `Evaluator*`, `Pots`, `PotPayouts` | `deck.ts`, `evaluator.ts`, `pot.ts`: functions, the loops proved against them, and their theorems |
| `Engine`, `HandTable` | `state-machine.ts` twice: as functions on values, and as a class that updates its fields in place the way the source does; each method is proved equal to its function |
| `TurnOrder`, `HandInvariant`, `HandAccounting`, `HandStep`, `HandRuns`, `HandStart`, `HandProgress`, `HandTheorems`, `HandRules` | the invariant of a hand in play, its preservation by every action, and what follows over whole hands |
| `HandMoves`, `HandEnds` | what each action costs and does, what comes next, and what everybody holds when the hand is over |
| `HandRelations`, `HandTwins` | two hands run side by side |
| `ThreeHanded`, `HandWitness`, `RoyalFlush`, `ButtonWitness`, `SessionWitness` | concrete hands and a session, played from the deal, in which the code does what one might not expect |
| `LegalActions`, `Bot`, `BotDecisions` | `actions.ts` and `bot-strategy.ts` against the engine |
| `Rooms`, `RoomTheorems`, `Session`, `SessionTheorems`, `SessionRuns`, `SessionRows` | the room protocol and the sequence of hands |
| `Ledger`, `LedgerTheorems`, `LedgerEntries`, `Settlement`, `SettlementTheorems` | the ledger protocol and the settlement |

`Engine.ApplyGameAction` and the functions it calls keep the branches, checks and error cases of the source, in the
source's order. Exceptions are `Result` values. A run (`HandRuns.Run`, `SessionRuns.SessionRun`, `RoomTheorems.RoomRun`,
`LedgerTheorems.LedgerRun`) takes any sequence of requests, accepted or not; a rejected request leaves the state alone.

A valid set-up (`HandStart.ValidSetup`) has distinct seats, stacks that are not negative with at least two of them
positive, `0 < smallBlind < bigBlind`, and a deck of at least `2n + 5` cards for the `n` players with chips.

## What the code does not promise

The proofs settle where the code falls short of what one might expect, and exactly when:

- **Chips can disappear at a showdown.** A finishing action loses chips if and only if it is a fold by the last player
  who could still bet, against at least two other contenders, after investing more than any of them
  (`HandRuns.ChipsLostExactly`). The layer above the largest contender has no eligible seat and no pot is built for it.
  Dealt from any deck, with stacks 300, 100 and 100, the actions RAISE to 200, ALL_IN, ALL_IN, FOLD end the hand with
  fewer than 500 chips (`HandWitness.FoldLosesChips`). Over a whole session this is the only way the table loses chips
  (`SessionRuns.TableNeverGains`), and there are sessions that do (`SessionWitness.SessionLosesChips`).
- **The advertised minimum bet is not enforced.** Any positive bet up to the stack is accepted; the gap is exactly the
  amounts below the advertised minimum (`LegalActions.BetIsLooser`). On a flop with big blind 2 a bet of 1 is accepted
  (`HandWitness.TinyBetAccepted`).
- **A short raise reopens the betting.** After a raise by less than the minimum, which only an all-in can make, whoever is
  on turn may raise again, having acted before or not (`HandRules.ShortRaiseReopens`). In `HandWitness.ShortAllInReopened`
  the player who had raised to 20 answers an all-in of 30 with a raise to 48.
- **The button can skip a seat.** It goes to the next live seat if and only if the old dealer still has chips; otherwise
  one live seat is passed over (`SessionTheorems.ButtonMovesOneSeat`). In `ButtonWitness.ButtonSkipsSeat` the dealer in
  seat 1 goes broke and the button passes from seat 1 over seat 2 to seat 3.
- **A LOCKED ledger hand need not be balanced.** It is exactly when the amounts submitted since it entered CONFIRMING
  cancel out (`LedgerTheorems.LockedBalancedIff`); a balanced hand is thrown off balance exactly by an accepted submission
  of a different amount (`LedgerTheorems.BalanceBreaksIff`). `LedgerTheorems.LockedUnbalanced` is such a run of a new hand.
- **LOCKED is not final.** Any participant's dispute reopens a locked hand, and the owner's request takes it back to
  CONFIRMING while it is balanced (`LedgerEntries.UnlocksIff`); until it is locked again it is missing from the summary
  (`SettlementTheorems.NetIsOwn`).
- **A temporary participant keeps an unlocked ledger hand from ever being locked**: nobody can confirm for a participant
  without a user (`LedgerTheorems.TempNeverLocks`). Whatever was requested before, a hand that is not locked can still be
  locked exactly when every participant has a user (`LedgerTheorems.ReachableLockableIff`). A temporary participant who is
  added after the lock changes nothing: the hand stays locked (`LedgerTheorems.LateTempStaysLocked`).

## Model

| member | source | states |
|---|---|---|
| HandRuns.AcceptedIff | packages/shared/src/poker/state-machine.ts:134-158 | in play an action is accepted exactly when it comes from the seat on turn, under no other identity, and its mutation is allowed: dealing, street changes and showdown never throw afterwards |
| HandMoves.AcceptedWhenAllowed | packages/shared/src/poker/state-machine.ts:237-339 | on turn a request is accepted exactly when the rules allow it: CHECK level with the bet, CALL behind it, BET of 1 up to the stack when no bet stands, RAISE above the bet, within the stack and by the minimum or all in; FOLD and ALL_IN always |
| HandMoves.RefusedBecause | packages/shared/src/poker/state-machine.ts:134-339 | in every reachable state a refused request gets the error of the one reason that applies to it: no such seat, hand over, not on turn, another identity, or the move's own |
| HandMoves.ActionDoes | packages/shared/src/poker/state-machine.ts:237-339 | an accepted action costs exactly its price (BET a: a; RAISE to a: a less the own street investment; CALL: what is missing or the whole stack; ALL_IN: the stack; CHECK, FOLD: nothing), is recorded with it, changes nobody else's money, and leaves the bet, minimum raise, aggressor and acted flags the request calls for; a new street starts from 0 with the big blind as minimum |
| HandMoves.TurnPassesOn | packages/shared/src/poker/state-machine.ts:363-376 | the turn goes to the nearest player who has to act, clockwise of the actor on the same street and of the button on a new one |
| HandMoves.WhatFollows | packages/shared/src/poker/state-machine.ts:341-376 | whether the hand ends by folds, goes to a showdown, stays on its street or opens the next is decided by who contends, whether anybody is ACTIVE and whether anybody still has to answer |
| HandRuns.StepOutcome | packages/shared/src/poker/state-machine.ts:341-376 | every accepted action leads to a state in the invariant, to the last player taking the pot, or to a showdown of the full board |
| HandRuns.StepKeepsSound | packages/shared/src/poker/state-machine.ts:134-158 | every accepted action keeps "invariant or properly closed" and the total of starting stacks |
| HandRuns.ChipsLostExactly | packages/shared/src/poker/state-machine.ts:355-420 | a finishing action loses chips if and only if it is a fold of the last bettor above all of at least two contenders; then the loss is the shortfall above the largest contender |
| HandRuns.ActionKeeps | packages/shared/src/poker/state-machine.ts:152-157 | an action keeps seats, hole cards, starting stacks, button and blinds, moves cards only from deck to board, and adds exactly one history row with the chips it cost |
| HandStart.HandOpens | packages/shared/src/poker/state-machine.ts:51-132 | a valid set-up always gets a hand, in the invariant or already at its showdown |
| HandTheorems.RunAccounting | packages/shared/src/poker/state-machine.ts:341-447 | over every run: in play stack plus investment is the starting stack and the pot is the sum invested; a fold finish returns all chips; a showdown returns all but the shortfall |
| HandTheorems.RunReplays | packages/shared/src/poker/state-machine.ts:480-503 | in every reachable state the recorded actions of a seat add up to what it invested |
| HandTheorems.StreetOpensLevel | packages/shared/src/poker/state-machine.ts:363-373 | a street opens only after everybody who could act had acted and matched; it starts with bet 0, the ACTIVE players level and nobody ahead of them |
| HandEnds.RunEndsRight | packages/shared/src/poker/state-machine.ts:378-447 | over every run, a finished hand has paid the last player standing the whole pot, or at a showdown each contender at most what all put in between the best stake of a better hand and the own investment, exactly that unless hands tie; folded stacks keep what was not invested; each pot names the contenders it is open to and exactly the best hands among them as winners, and the winner lines add up to the same stacks and show each winner's own hand |
| HandEnds.LaterCategoryTakes | packages/shared/src/poker/state-machine.ts:404-447 | dealt from a deck without duplicates, a contender whose seven cards make a later category than all others' (a full house against flushes) takes all that was put in up to the own investment |
| HandTheorems.CardsFixedByDeck | packages/shared/src/poker/state-machine.ts:449-478 | whatever is played, board and rest of the deck are the undealt cards in order, the board fits the street, and everybody holds the cards dealt |
| HandTheorems.NoCardLost | packages/shared/src/poker/state-machine.ts:89-95 | deck, board and hole cards together are always the deck the hand started with |
| HandRules.ButtonIsSet | packages/shared/src/poker/state-machine.ts:51-72 | the button of a new hand is the seat asked for when it holds chips, the next seat that does otherwise, and the lowest such seat when none is asked for |
| HandRules.BlindsFollowButton | packages/shared/src/poker/state-machine.ts:160-179 | heads up the dealer posts the small blind; otherwise the blinds are the next two live seats clockwise |
| HandRules.OpeningBlinds | packages/shared/src/poker/state-machine.ts:122-131 | a hand opens with both blinds posted and recorded as far as the stacks go, nothing else invested, and the turn offered clockwise from the big blind |
| HandRules.WhoMustAnswer | packages/shared/src/poker/state-machine.ts:505-521 | after an action the actor is done; if the bet rose everybody else who can act must answer, otherwise exactly those who had to before |
| HandRules.StreetKeepsMinimum | packages/shared/src/poker/state-machine.ts:267-334 | once a bet stands, no requests that stay on its street lower the bet or the minimum raise, and streets never go back |
| HandRules.LaterRaisesMatch | packages/shared/src/poker/state-machine.ts:283-311 | once a bet or full raise by some amount is made, every later RAISE accepted on the street, whatever comes in between, is by at least that amount or all in |
| HandRules.ShortRaiseReopens | packages/shared/src/poker/state-machine.ts:283-334 | after a raise by less than the minimum, a RAISE by whoever is on turn is accepted exactly for totals above the bet, within the stack, and at least the unchanged minimum more or all in, whether the player had acted or not |
| TurnOrder.NearestActs | packages/shared/src/poker/state-machine.ts:523-540 | the turn goes to the nearest player clockwise who has to act, and to nobody only when nobody has to |
| HandProgress.SomebodyCanAct | packages/shared/src/poker/state-machine.ts:523-540 | in every state in play at least two contend and the turn is with an ACTIVE player with chips who is unacted or behind the bet |
| HandProgress.RecursionNeverTaken | packages/shared/src/poker/state-machine.ts:369-371 | the recursive call of normalizeAfterAction is never reached |
| HandProgress.StepLowers | packages/shared/src/poker/state-machine.ts:134-158 | every accepted action that leaves the hand in play lowers (streets left, chips, ACTIVE players, unacted players) lexicographically |
| HandProgress.EveryHandFinishes | packages/shared/src/poker/state-machine.ts:134-158 | whoever plays, if the actions made along the hand are accepted the hand finishes |
| HandTwins.AllInIsRaise | packages/shared/src/poker/state-machine.ts:283-334 | ALL_IN above a non-zero bet and RAISE to the same total lead, under every later request sequence, to the same answers, turns, streets, stacks, bets, offers and payouts |
| HandTwins.HoleCardsStayPrivate | packages/shared/src/poker/state-machine.ts:190-199 | two hands whose decks agree on the board accept the same actions and show the public the same state until both reach a showdown, fold finishes included |
| HandWitness.FoldLosesChips | packages/shared/src/poker/state-machine.ts:355-371 | the run RAISE to 200, ALL_IN, ALL_IN, FOLD of a hand dealt to stacks 300, 100, 100 from any deck finishes with fewer than 500 chips |
| HandWitness.ShortAllInReopened | packages/shared/src/poker/state-machine.ts:313-334 | a dealt hand in which an all-in raises by 10 below the minimum of 18 and the player who had already acted raises again |
| HandWitness.TinyBetAccepted | packages/shared/src/poker/state-machine.ts:267-281 | a dealt hand in which a bet of 1 is not advertised, a bet of 2 is, and the bet of 1 is accepted |
| ButtonWitness.ButtonSkipsSeat | packages/shared/src/poker/state-machine.ts:181-188 | a dealt hand that leaves seats 2 and 3 with chips and sends the button from seat 1 to seat 3 |
| HandTable.GameTable.FirstActionable | packages/shared/src/poker/state-machine.ts:523-540 | the clockwise walk over the seats returns what the recursive specification returns |
| HandTable.GameTable.MarkAggression | packages/shared/src/poker/state-machine.ts:505-513 | the in-place loop over the players clears and sets exactly the specified flags |
| HandTable.GameTable.Mutate | packages/shared/src/poker/state-machine.ts:237-339 | updating the fields in place gives the specified betting state, or the specified error (and then promises nothing about the table, a clone that is thrown away) |
| HandTable.GameTable.DealToFive | packages/shared/src/poker/state-machine.ts:472-478 | the dealing loop ends in the specified board and deck, or reports the deck exhausted |
| HandTable.GameTable.PayAllocations | packages/shared/src/poker/state-machine.ts:416-420 | paying pot by pot and winner by winner in place adds to every stack the sum of its payouts |
| HandTable.GameTable.Advance | packages/shared/src/poker/state-machine.ts:449-470 | the in-place street change gives the specified state |
| HandTable.GameTable.Normalize | packages/shared/src/poker/state-machine.ts:341-376 | the in-place normalisation, recursion included, gives the specified state or error |
| HandTable.GameTable.Apply | packages/shared/src/poker/state-machine.ts:134-158 | clone, mutate and normalise give exactly the specified answer, again with different seats |
| HandTable.GameTable.DealOneRound | packages/shared/src/poker/state-machine.ts:89-95 | one pass of the dealing loop gives every player who is not OUT the next card |
| HandTable.GameTable.Create | packages/shared/src/poker/state-machine.ts:51-132 | building the hand in place gives exactly the specified opening |
| Pots.BuildSidePots | packages/shared/src/poker/pot.ts:9-30 | the layering loop builds the specified pots |
| Pots.PotTotal | packages/shared/src/poker/pot.ts:9-30 | for any investments and statuses the pots add up to the sum of min(invested, largest contender) |
| Pots.EligibleNested | packages/shared/src/poker/pot.ts:16-25 | later pots are open to a subset of the seats of earlier ones |
| Pots.EligibleExactly | packages/shared/src/poker/pot.ts:16-25 | every pot is open to exactly the contenders who invested up to its level, listed by seat, and to somebody |
| Pots.WinnersAreBest | packages/shared/src/poker/pot.ts:37-40 | the winners of a pot are exactly the eligible seats whose rank no eligible seat exceeds |
| Pots.SplitIsFair | packages/shared/src/poker/pot.ts:41-48 | of two winners the lower seat gets the same or one odd chip more |
| Pots.PotPaysItself | packages/shared/src/poker/pot.ts:41-48 | the payouts of a pot add up to exactly the pot |
| Pots.AllocateSidePots | packages/shared/src/poker/pot.ts:32-56 | the nested payout loops compute the specified allocations |
| Pots.CollectsAtMostMatched | packages/shared/src/poker/pot.ts:9-56 | no contender collects more than what all put in up to that contender's investment, and one that beats all others collects exactly that |
| PotPayouts.CollectsExactly | packages/shared/src/poker/pot.ts:9-56 | for any investments, statuses and ranks a contender collects at most the part of the money between the best stake of a better hand and the own investment, and exactly that without ties |
| Pots.FoldedCollectsNothing | packages/shared/src/poker/pot.ts:18-25 | a seat that does not contend is paid nothing |
| Pots.ShowdownPaysMatched | packages/shared/src/poker/pot.ts:9-56 | all payouts together are the sum of min(invested, largest contender) |
| Deck.CreateDeckNoDup | packages/shared/src/poker/deck.ts:4-6 | the deck has 52 different cards |
| Deck.CreateDeckComplete | packages/shared/src/poker/deck.ts:4-6 | every card is in the new deck, and the ranks come in ascending order |
| Deck.ShuffleDeck | packages/shared/src/poker/deck.ts:8-15 | the in-place swap loop computes the specified shuffle and leaves its input alone |
| Deck.ShuffleIsPermutation | packages/shared/src/poker/deck.ts:8-15 | whatever the random choices, the result is a permutation of the deck |
| Deck.ShuffleBijective | packages/shared/src/poker/deck.ts:8-15 | every permutation of a duplicate-free deck comes from exactly one vector of random choices |
| Evaluator.GroupRanksLoop | packages/shared/src/poker/evaluator.ts:139-145 | the counting loop gives the specified groups |
| EvaluatorGroups.GroupsTally | packages/shared/src/poker/evaluator.ts:139-145 | the groups hold every rank with its multiplicity, by count and then rank |
| Evaluator.GetStraightHigh | packages/shared/src/poker/evaluator.ts:147-157 | the window search gives the specified straight |
| EvaluatorShapes.StraightHighExact | packages/shared/src/poker/evaluator.ts:147-157 | a straight to a top card is found exactly when the five ranks form that run, ace high or low |
| Evaluator.CardsForRanksLoop | packages/shared/src/poker/evaluator.ts:167-178 | the splice loop picks the specified cards |
| Evaluator.EncodeRankLoop | packages/shared/src/poker/evaluator.ts:133-137 | padding and the base-15 fold give the specified number |
| Evaluator.CompareHands | packages/shared/src/poker/evaluator.ts:22-32 | the comparison loop gives the specified difference |
| EvaluatorOrder.OrdersAgree | packages/shared/src/poker/evaluator.ts:22-32 | compareHands and the difference of the base-15 rank values have the same sign |
| EvaluatorLadder.LadderDecides | packages/shared/src/poker/hand-rank.ts:14-25 | of two hands the one whose category comes later in the list from HIGH_CARD to ROYAL_FLUSH compares higher and has the larger rank value |
| EvaluatorLadder.TiebreakerDecides | packages/shared/src/poker/evaluator.ts:22-32 | within a category the first tiebreaker that differs decides both orders |
| EvaluatorLadder.FiveByLadder | packages/shared/src/poker/evaluator.ts:50-121 | five different cards are given a category exactly when it holds of them and no later one in the list does |
| EvaluatorLadder.SevenByLadder | packages/shared/src/poker/evaluator.ts:11-20 | seven different cards are given the last category in the list that any five of them make |
| EvaluatorClassification.StrongestCategory | packages/shared/src/poker/evaluator.ts:50-121 | five different cards are given the strongest category whose definition by multiplicities, suit and run holds; `EvaluatorLadder.FiveByLadder` says the same by the list of the ten categories |
| EvaluatorClassification.BestFiveAndTiebreakers | packages/shared/src/poker/evaluator.ts:50-121 | the shown best five are the five cards, and the tiebreakers are the ranks by count then height, or the top of the run |
| EvaluatorBestFive.BestFiveInOrder | packages/shared/src/poker/evaluator.ts:50-121 | a straight is shown from its top card down with a wheel's ace last, any other hand by how often a rank occurs and then by height |
| EvaluatorBest.BestOfSeven | packages/shared/src/poker/evaluator.ts:11-20 | the seven-card value is that of some five-card subset and no subset is worth more |
| EvaluatorBest.CombinationsComplete | packages/shared/src/poker/evaluator.ts:180-188 | every sub-multiset of the given size is among the combinations |
| EvaluatorBest.SevenIgnoresOrder | packages/shared/src/poker/evaluator.ts:11-20 | reordering the seven cards changes neither value nor category |
| EvaluatorBest.FindWinnersMatchesPot | packages/shared/src/poker/evaluator.ts:34-48 | with one common pot the comparison-based winners and the rank-based winners are the same seats |
| LegalActions.LegalIsExact | packages/shared/src/poker/actions.ts:19-49 | FOLD, CHECK, CALL, ALL_IN and RAISE with an amount are accepted from the seat on turn exactly when advertised |
| LegalActions.BetIsLooser | packages/shared/src/poker/actions.ts:33-38 | every advertised bet is accepted; what is accepted beyond that is exactly the positive amounts below the advertised minimum |
| LegalActions.CallsAtPrice | packages/shared/src/poker/actions.ts:26-32 | a CALL is advertised with the amount it then costs |
| LegalActions.OffTurnNothing | packages/shared/src/poker/actions.ts:21-22 | off turn nothing is advertised and nothing is accepted |
| Bot.NeverFoldsACheck | packages/shared/src/poker/bot/bot-strategy.ts:53-71 | the bot never folds when it could check |
| Bot.BotIsSound | packages/shared/src/poker/bot/bot-strategy.ts:6-71 | for any strength, random draws and level the engine accepts the bot's decision on its turn |
| BotDecisions.TheBotSees | apps/api/src/practice-game/practice-game.service.ts:399-425 | the bot on turn is given the table as it is, and its decision is submitted for its own seat |
| BotDecisions.BotDecides | packages/shared/src/poker/bot/bot-strategy.ts:6-71 | on its turn the bot raises or bets for value, bluffs, checks, calls, goes all in or folds by the strength of its hand, what it has to call and the pot, and its amounts are the nearest whole number to the level's part of the pot, kept within the advertised range |
| BotDecisions.CallsAndFoldsIff | packages/shared/src/poker/bot/bot-strategy.ts:53-63 | facing a bet and not aggressive, the bot calls exactly when its strength reaches the call's part of the pot plus 0.09 (beginner) or 0.14, and folds exactly when it does not and no short all-in applies; without a bet it does neither |
| BotDecisions.AggressionIff | packages/shared/src/poker/bot/bot-strategy.ts:32-52 | the bot bets or raises exactly for value above its level's threshold or as a bluff below 0.35, when the draw says so |
| BotDecisions.StrongerNeverFolds | packages/shared/src/poker/bot/bot-strategy.ts:53-63 | everything else the same, a stronger hand never folds where a weaker one calls, goes all in or raises for value |
| Bot.BotsFinishTheHand | packages/shared/src/poker/bot/bot-strategy.ts:6-71 | a hand played by bots alone runs to its end without a rejected action |
| RoomTheorems.CreatedIsOk | apps/api/src/practice-room/practice-room.service.ts:31-64 | a new friends room seats its owner, unconfirmed, within the room |
| RoomTheorems.CreatedIsNew | apps/api/src/practice-room/practice-room.service.ts:36-63 | a friends room is created exactly when the big blind exceeds the small blind, with the requested blinds, size and stack and its owner alone in seat 1 |
| RoomTheorems.JoinSeatsLowest | apps/api/src/practice-room/practice-room.service.ts:114-134 | a newcomer gets the lowest free seat and the room's initial stack, and nobody else's row changes |
| RoomTheorems.RunShows | apps/api/src/practice-room/practice-room.service.ts:140-180 | over any requests to a new room every row holds the stack the member last chose, or the initial stack, and the flags the events since then leave |
| RoomTheorems.SeatAlwaysFound | apps/api/src/practice-room/practice-room.service.ts:114-124 | a room that is not full always has a free seat: the "no seat" error never occurs |
| RoomTheorems.ServeKeepsRoom | apps/api/src/practice-room/practice-room.service.ts:100-213 | every accepted request keeps different users in different seats 1..playerCount, and READY meaning all confirmed |
| RoomTheorems.ServedIff | apps/api/src/practice-room/practice-room.service.ts:100-213 | which requests a room accepts: joining while it waits and has a free seat, choosing and readiness by members, confirming once all have chosen, closing by the owner, starting by the owner once READY with everybody ready and holding chips; start and close touch no row |
| RoomTheorems.SettledRoomStays | apps/api/src/practice-room/practice-room.service.ts:203-213 | after the start or the close no requests change a row; at most the owner still closes the room |
| RoomTheorems.StartMeansAgreement | apps/api/src/practice-game/practice-game.service.ts:739-756 | after any requests, a start that succeeds finds every member with chips and with a confirmation later than the last change of chips by anyone and the last join |
| RoomTheorems.AgreementStarts | apps/api/src/practice-room/practice-room.service.ts:140-167 | two or more members who choose stacks and then all confirm leave the room READY with exactly those stacks, and the owner can start it |
| Rooms.StoredRoom.ConfirmInitialChips | apps/api/src/practice-room/practice-room.service.ts:140-154 | updating the user's rows one by one gives the specified rows and status; an error leaves everything unchanged |
| Rooms.StoredRoom.ChooseInitialChips | apps/api/src/practice-room/practice-room.service.ts:156-167 | the two passes over the rows, everybody unconfirmed and then the user's stack set, give the specified rows; an error changes nothing |
| Rooms.StoredRoom.MarkReady | apps/api/src/practice-room/practice-room.service.ts:169-180 | updating the user's rows one by one sets the ready flag as specified; an error changes nothing |
| SessionTheorems.ButtonMovesOneSeat | packages/shared/src/poker/state-machine.ts:181-188 | the button goes to the first live seat after the old one if and only if the old dealer is still live; else one live seat is passed over |
| SessionTheorems.ButtonGoesRound | packages/shared/src/poker/state-machine.ts:181-188 | a chain of nextDealerSeat over the same n live seats visits each of them exactly once |
| SessionRuns.SessionButtonGoesRound | apps/api/src/practice-game/practice-game.service.ts:121-180 | as long as the same n seats hold chips, n hands in a row of a session, whatever is played in them, give each of those seats the button exactly once |
| SessionTheorems.NextSetupIsValid | apps/api/src/practice-game/practice-game.service.ts:150-168 | nextHand always meets what createInitialGameState asks for |
| SessionRuns.NextHandOutcome | apps/api/src/practice-game/practice-game.service.ts:121-180 | nextHand never fails after a finished hand; it ends the session exactly when fewer than two seats hold chips, else deals from exactly the last stacks under the next button |
| SessionRuns.NextHandIsDealt | apps/api/src/practice-game/practice-game.service.ts:150-168 | the next hand is the one dealt from the given deck to the room's seats and last stacks, under the next button and the room's own blinds |
| SessionRuns.FirstHandOpens | apps/api/src/practice-game/practice-game.service.ts:69-93 | a room that passes the start checks always gets its first hand, button on the lowest seat, with exactly the chips brought |
| SessionRuns.ChosenStacksAreDealt | apps/api/src/practice-game/practice-game.service.ts:76-83 | over any requests to a new room: if it passes the start checks the first hand is dealt, and every member starts it in the own seat with exactly the stack last chosen, or the room's initial stack |
| SessionRuns.StepTotal | apps/api/src/practice-game/practice-game.service.ts:121-180 | every session request keeps the session in order and loses chips exactly when it is a forfeiting fold |
| SessionRuns.TableNeverGains | apps/api/src/practice-game/practice-game.service.ts:121-180 | over any run of a session the table never gains chips and loses some exactly when some request was a forfeiting fold |
| Session.PracticeGame.PersistFinished | apps/api/src/practice-game/practice-game.service.ts:488-512 | one row update per player of a finished hand puts every seat's stack into its room row |
| SessionRows.RowsFollowSession | apps/api/src/practice-game/practice-game.service.ts:488-512 | over any requests, between hands every room row holds the stack the last hand left in its seat, and during a hand the stack it began with |
| SessionRuns.UserActsIff | apps/api/src/practice-game/practice-game.service.ts:108-119 | in a session a user's action is accepted exactly when that user sits in the seat on turn and the engine accepts it: lookup and checks stop everybody else and never the right user |
| SessionRuns.SeatActsIff | apps/api/src/practice-game/practice-game.service.ts:323-348 | for a seat an action is accepted exactly when the seat is on turn, the acting user is its own (no user for a bot), and the engine accepts the action |
| SessionWitness.SessionFollowsEngine | apps/api/src/practice-game/practice-game.service.ts:323-369 | whatever the members and the bots request during a hand, the stored game is the engine's run of their actions, and nobody changes seats |
| SessionWitness.SessionLosesChips | apps/api/src/practice-game/practice-game.service.ts:323-369 | the first hand of a room with stacks 300, 100, 100 and four accepted requests take the table below its 500 chips |
| LedgerTheorems.ServeKeepsHand | apps/api/src/team-ledger/team-ledger.service.ts:15-25 | every accepted request keeps: nobody leaves, users differ, and past the submissions every registered entry counts |
| LedgerEntries.ServedIff | apps/api/src/team-ledger/team-ledger.service.ts:15-34 | which requests a hand accepts, and the status each accepted request leaves |
| LedgerEntries.RunHolds | apps/api/src/team-ledger/team-ledger.service.ts:18-32 | over any requests to a new hand every entry holds the amount last submitted for its participant, SUBMITTED until confirmed and reopened by any dispute, as DISPUTED when it is the participant's own |
| LedgerEntries.UnlocksIff | apps/api/src/team-ledger/team-ledger.service.ts:22-25 | a LOCKED hand is reopened exactly by a dispute of any participant or by the owner's request while everything is submitted and adds up to 0; no request but a dispute changes a registered participant's entry in it |
| LedgerTheorems.SubmissionPromotes | apps/api/src/team-ledger/team-ledger.service.ts:18-33 | while amounts are collected a submission enters CONFIRMING exactly when all entries are submitted and add up to 0 |
| LedgerTheorems.RequestAcceptedIff | apps/api/src/team-ledger/team-ledger.service.ts:22-23 | the owner's request is accepted exactly when all entries are submitted and add up to 0 |
| LedgerTheorems.EntersBalanced | apps/api/src/team-ledger/team-ledger.service.ts:18-25 | only these two steps enter CONFIRMING, and only with all submitted and sum 0 |
| LedgerTheorems.DisputeNeedsNewRound | apps/api/src/team-ledger/team-ledger.service.ts:25 | after a dispute the hand enters CONFIRMING again only once every participant has submitted anew |
| LedgerTheorems.BalanceBreaksIff | apps/api/src/team-ledger/team-ledger.service.ts:18-19 | a balanced hand is thrown off balance exactly by an accepted submission of another amount |
| LedgerTheorems.BalanceDrifts | apps/api/src/team-ledger/team-ledger.service.ts:18-32 | over any run the sum changes by exactly what the submissions change, and not at all without submissions |
| LedgerTheorems.ConfirmationsLockBalanced | apps/api/src/team-ledger/team-ledger.service.ts:24-34 | confirmations alone take a hand from CONFIRMING to a state whose amounts add up to 0 |
| LedgerTheorems.LockedBalancedIff | apps/api/src/team-ledger/team-ledger.service.ts:18-34 | a LOCKED hand entered CONFIRMING at some request, and its amounts add up to 0 exactly when the submissions after that cancel out |
| LedgerTheorems.LockedUnbalanced | apps/api/src/team-ledger/team-ledger.service.ts:18-24 | five requests to a new hand of two registered participants lock it with amounts that add up to 100 |
| LedgerTheorems.LocksIff | apps/api/src/team-ledger/team-ledger.service.ts:24-34 | a confirmation locks the hand exactly when everybody else had confirmed |
| LedgerTheorems.TempNeverLocks | apps/api/src/team-ledger/team-ledger.service.ts:24-34 | a hand that has a temporary participant, without a confirmed entry, before it is locked is never locked, whatever is requested |
| LedgerTheorems.LateTempStaysLocked | apps/api/src/team-ledger/team-ledger.service.ts:15 | adding a temporary participant to a LOCKED hand is accepted and leaves it LOCKED |
| LedgerTheorems.ReachableLockableIff | apps/api/src/team-ledger/team-ledger.service.ts:15-34 | after any requests to a new hand, if it is not LOCKED, some further requests lock it exactly when every participant has a user |
| LedgerTheorems.RoundLocks | apps/api/src/team-ledger/team-ledger.service.ts:18-34 | registered participants who submit amounts adding up to 0 and then all confirm lock the hand with exactly those amounts |
| Ledger.StoredHand.Dispute | apps/api/src/team-ledger/team-ledger.service.ts:25 | reopening the entries one by one and then marking the own one gives the specified entries; an error changes nothing |
| Settlement.GetSummary | apps/api/src/team-ledger/team-ledger.service.ts:26 | the nested loops total each ACTIVE participant's entries over the locked hands |
| SettlementTheorems.NetIsOwn | apps/api/src/team-ledger/team-ledger.service.ts:26 | the cumulative net is the sum over the hands of the participant's own amount where the hand is LOCKED and 0 elsewhere |
| SettlementTheorems.SummaryShows | apps/api/src/team-ledger/team-ledger.service.ts:26 | the summary has one line for each ACTIVE participant and nobody else, with the sum of that participant's own locked amounts |
| Settlement.GenerateSettlement | apps/api/src/team-ledger/team-ledger.service.ts:27 | the two-pointer loop over mutated amounts gives the specified transfers |
| SettlementTheorems.SettlementIsLean | apps/api/src/team-ledger/team-ledger.service.ts:27 | only positive transfers, at most creditors + debtors - 1 of them and none if a side is empty, moving the smaller of debts and credits |
| SettlementTheorems.DebtorPays | apps/api/src/team-ledger/team-ledger.service.ts:27 | nobody pays more than owed, and everybody pays in full when debts do not exceed credits |
| SettlementTheorems.CreditorReceives | apps/api/src/team-ledger/team-ledger.service.ts:27 | nobody receives more than due, and everybody receives in full when credits do not exceed debts |
| SettlementTheorems.SettlementSquares | apps/api/src/team-ledger/team-ledger.service.ts:27 | when the nets add up to 0, received minus paid is each participant's cumulative net |
| SettlementTheorems.BalancedHandsSettle | apps/api/src/team-ledger/team-ledger.service.ts:26-27 | if every locked hand adds up to 0, received minus paid is for each participant the sum of the own amounts in the locked hands |
| SettlementTheorems.SubmittedIsSettled | apps/api/src/team-ledger/team-ledger.service.ts:18-34 | hand after hand of submissions that add up to 0, each confirmed by all: received minus paid is exactly the sum of the amounts the participant submitted |
| SettlementTheorems.LargestDebtFirst | apps/api/src/team-ledger/team-ledger.service.ts:27 | the debtors pay in the order of their debts, the largest first |
| SettlementTheorems.LargestCreditFirst | apps/api/src/team-ledger/team-ledger.service.ts:27 | the creditors are paid in the order of their credits, the largest first |

## Left out

- Database, Redis, Socket.IO, timers, login and roles: storage is an in-memory value and every request is one atomic step.
- The lock around concurrent requests: requests are taken one after the other.
- Timestamps, nicknames, room and hand ids, card and hand labels, replay rows and statistics: carried data without logic.
- The `events` list of an action: it is built beside the state and never read by the engine.
- Cards as strings: a card is a rank and a suit, so malformed card strings do not occur; duplicate cards are possible unless a theorem excludes them.
- The random numbers of the shuffle and the bot: they are parameters, any values in range.
- The bot's hand strengths (`preflop.ts`, `postflop.ts`), its position and the player count it is given: any values; bot sizes are rounded over reals, not over 64-bit doubles.
- BOT_ACTION_MAX_PER_HAND and the bot timers: the guard that stops a bot after too many actions is not modelled.
- endRoom in the middle of a hand, which discards the pot, and admin closing.
- `toPrivateHandState` and the views of single players: a selection of one player's fields.
- `startRoom` of the room service: the controller starts games through `startFirstHand` instead.
- User bans and risk logs in front of the room requests: every user is taken to be allowed.
- Solo rooms: created READY with bots; only friends rooms go through the protocol proved here.
- Ledger room life cycle (create, join, start, end, buy-ins): single branches around the hand protocol.
- Participants who LEFT or were REMOVED: the statuses exist in the model, but no request of the service writes them, and the run theorems start from participants who are all ACTIVE.
- Ledger amounts as decimals: integer cents, so `toNumber` rounding and the exact-zero tests on doubles are not captured.
- The list of hands in a ledger room: one hand's protocol is proved at a time; the summary and the settlement take any list of hands.
- `isBot`: a player is a bot exactly when it has no user, as the services create them.
- Methods without a row above: `LegalActions.GetLegalActions`, the requests of `Ledger.StoredHand` and `Rooms.StoredRoom` that touch one row (join, submit, confirm, ask for confirmation, add), and `StartFirstHand`, `StartNextHand`, `ApplySeatAction` and `ApplyAction` of `Session.PracticeGame`. They are the source's in-place form, proved equal to their specification functions step by step; what is said about those functions is in the rows of the theorems.
- HandTable.GameTable.Mutate: promises nothing about the table after an error, because the caller drops the clone.
- Session.PracticeGame.StartFirstHand: covers the case in which no hand is stored yet; the early return of an existing state is left out.
