/** packages/shared/src/poker/state-machine.ts as functions on values: what one
    hand of no-limit hold'em does with each action. HandTable.dfy holds the
    in-place form the source uses and is proved against these functions. */
module Engine {
  import opened Sequences
  import opened Deck
  import Evaluator
  import opened Pots

  datatype Street = Preflop | Flop | Turn | River | Showdown

  datatype GameStatus = Playing | HandFinished | RoomFinished

  datatype Player = Player(
    seatNo: int,
    userId: Option<int>,
    holeCards: seq<Card>,
    chips: int,
    startHandChips: int,
    investedThisHand: int,
    investedThisStreet: int,
    status: Status,
    hasActed: bool)

  datatype Move = Fold | Check | Call | Bet | Raise | AllInMove

  datatype EntryKind = Played(move: Move) | SmallBlindPost | BigBlindPost

  /** One row of actionHistory. */
  datatype Entry = Entry(seatNo: int, kind: EntryKind, amount: int, street: Street)

  datatype WinnerLine = WinnerLine(seatNo: int, amountWon: int, hand: Option<Evaluator.EvaluatedHand>)

  datatype PotResult = PotResult(amount: int, eligible: seq<int>, winners: seq<WinnerLine>)

  datatype Reason = AllOthersFolded | ShowdownReached

  datatype WinnerInfo = WinnerInfo(reason: Reason, board: seq<Card>, totalPot: int, pots: seq<PotResult>)

  datatype GameState = GameState(
    status: GameStatus,
    street: Street,
    deck: seq<Card>,
    board: seq<Card>,
    pot: int,
    currentBet: int,
    minRaise: int,
    dealerSeat: int,
    smallBlindSeat: int,
    bigBlindSeat: int,
    smallBlind: int,
    bigBlind: int,
    turn: Option<int>,
    lastAggressor: Option<int>,
    players: seq<Player>,
    history: seq<Entry>,
    winnerInfo: Option<WinnerInfo>)

  datatype EngineError =
    | TooFewPlayers | SeatMissing | NotPlayable | NotYourTurn | IdentityMismatch | CannotAct
    | FacingABet | NothingToCall | BadAmount | BetExists | BetExceedsChips | NoBetToRaise
    | RaiseTooSmall | RaiseExceedsChips | BelowMinimumRaise | NoChipsForAllIn | InvalidChipAmount
    | DeckExhausted | HandNotSevenCards

  // ---------- seats ----------

  function SeatsOf(players: seq<Player>): seq<int> {
    seq(|players|, i requires 0 <= i < |players| => players[i].seatNo)
  }

  /** findPlayer: the position of the first player in the seat, or the length when there is none. */
  function PositionOf(players: seq<Player>, seat: int): (k: nat)
    ensures k <= |players|
    ensures k < |players| ==> players[k].seatNo == seat
    ensures k == |players| ==> forall j :: 0 <= j < |players| ==> players[j].seatNo != seat
  {
    if players == [] then 0 else if players[0].seatNo == seat then 0 else 1 + PositionOf(players[1..], seat)
  }

  function IndexOf(seats: seq<int>, seat: int): (k: nat)
    ensures k <= |seats|
    ensures k < |seats| ==> seats[k] == seat
    ensures k == |seats| ==> seat !in seats
  {
    if seats == [] then 0 else if seats[0] == seat then 0 else 1 + IndexOf(seats[1..], seat)
  }

  /** The first listed seat beyond the current one, or the fallback. */
  function FirstGreater(seats: seq<int>, current: int, fallback: int): int {
    if seats == [] then fallback
    else if seats[0] > current then seats[0]
    else FirstGreater(seats[1..], current, fallback)
  }

  function NextSeat(seats: seq<int>, current: int): int
    requires seats != []
  {
    var sorted := Sort(seats, IntLeq);
    var k := IndexOf(sorted, current);
    if k == |sorted| then FirstGreater(sorted, current, sorted[0])
    else if k + 1 < |sorted| then sorted[k + 1]
    else sorted[0]
  }

  function NormalizeDealerSeat(dealer: int, seats: seq<int>): int
    requires seats != []
  {
    if dealer in seats then dealer else FirstGreater(seats, dealer, seats[0])
  }

  datatype Blinds = Blinds(dealerSeat: int, smallBlindSeat: int, bigBlindSeat: int)

  function ResolveBlindSeats(active: seq<int>, dealerSeat: int): Result<Blinds, EngineError> {
    var seats := Sort(active, IntLeq);
    if |seats| < 2 then Err(TooFewPlayers)
    else
      var dealer := NormalizeDealerSeat(dealerSeat, seats);
      if |seats| == 2 then Ok(Blinds(dealer, dealer, NextSeat(seats, dealer)))
      else
        var small := NextSeat(seats, dealer);
        Ok(Blinds(dealer, small, NextSeat(seats, small)))
  }

  // ---------- turn order ----------

  predicate CanAct(p: Player) {
    p.status == Active && p.chips > 0
  }

  predicate NeedsAction(p: Player, currentBet: int) {
    CanAct(p) && (!p.hasActed || p.investedThisStreet < currentBet)
  }

  function FirstActionableFrom(players: seq<Player>, currentBet: int, cursor: int, steps: nat): Option<int>
    decreases steps
  {
    if steps == 0 || players == [] then None
    else
      var next := NextSeat(SeatsOf(players), cursor);
      var k := PositionOf(players, next);
      if k < |players| && NeedsAction(players[k], currentBet) then Some(next)
      else FirstActionableFrom(players, currentBet, next, steps - 1)
  }

  function FirstActionableSeatAfter(players: seq<Player>, currentBet: int, seat: int): Option<int> {
    FirstActionableFrom(players, currentBet, seat, |players|)
  }

  predicate IsBettingRoundComplete(players: seq<Player>, currentBet: int) {
    forall i :: 0 <= i < |players| && CanAct(players[i]) ==>
      players[i].hasActed && players[i].investedThisStreet == currentBet
  }

  // ---------- money ----------

  function Invested(players: seq<Player>): seq<int> {
    seq(|players|, i requires 0 <= i < |players| => players[i].investedThisHand)
  }

  function TotalInvested(players: seq<Player>): int {
    Sum(Invested(players))
  }

  function MaxStreet(players: seq<Player>): int
    requires players != []
  {
    if |players| == 1 then players[0].investedThisStreet
    else Max(MaxStreet(players[..|players| - 1]), players[|players| - 1].investedThisStreet)
  }

  function InvestChips(p: Player, amount: int): Result<Player, EngineError> {
    if amount < 0 || amount > p.chips then Err(InvalidChipAmount)
    else Ok(p.(
      chips := p.chips - amount,
      investedThisStreet := p.investedThisStreet + amount,
      investedThisHand := p.investedThisHand + amount,
      status := if p.chips == amount && p.status == Active then AllIn else p.status))
  }

  /** Everybody who can still act must act again; the actor has acted. */
  function MarkFullAggression(players: seq<Player>, actor: nat): seq<Player> {
    seq(|players|, i requires 0 <= i < |players| =>
      if i == actor then players[i].(hasActed := true)
      else if CanAct(players[i]) then players[i].(hasActed := false)
      else players[i])
  }

  // ---------- applyActionMutation ----------

  /** The part of the state an action mutates. */
  datatype Betting = Betting(players: seq<Player>, currentBet: int, minRaise: int, lastAggressor: Option<int>)

  datatype Moved = Moved(betting: Betting, amount: int)

  function PositiveAmount(amount: Option<int>): Result<int, EngineError> {
    if amount == None || amount.value <= 0 then Err(BadAmount) else Ok(amount.value)
  }

  function SetActed(players: seq<Player>, i: nat): seq<Player>
    requires i < |players|
  {
    players[i := players[i].(hasActed := true)]
  }

  function ApplyMove(b: Betting, i: nat, move: Move, amount: Option<int>): Result<Moved, EngineError>
    requires i < |b.players|
  {
    var p := b.players[i];
    match move
    case Fold => Ok(Moved(b.(players := b.players[i := p.(status := Folded, hasActed := true)]), 0))
    case Check =>
      if p.investedThisStreet != b.currentBet then Err(FacingABet)
      else Ok(Moved(b.(players := SetActed(b.players, i)), 0))
    case Call =>
      if b.currentBet <= p.investedThisStreet then Err(NothingToCall)
      else
        var callAmount := Min(p.chips, b.currentBet - p.investedThisStreet);
        var q :- InvestChips(p, callAmount);
        Ok(Moved(b.(players := SetActed(b.players[i := q], i)), callAmount))
    case Bet =>
      var betAmount :- PositiveAmount(amount);
      if b.currentBet != 0 then Err(BetExists)
      else if betAmount > p.chips then Err(BetExceedsChips)
      else
        var q :- InvestChips(p, betAmount);
        Ok(Moved(Betting(MarkFullAggression(b.players[i := q], i), q.investedThisStreet, betAmount, Some(p.seatNo)),
          betAmount))
    case Raise =>
      if b.currentBet <= 0 then Err(NoBetToRaise)
      else
        var raiseTo :- PositiveAmount(amount);
        if raiseTo <= b.currentBet then Err(RaiseTooSmall)
        else if raiseTo > p.investedThisStreet + p.chips then Err(RaiseExceedsChips)
        else
          var raiseSize := raiseTo - b.currentBet;
          var additional := raiseTo - p.investedThisStreet;
          if raiseSize < b.minRaise && additional != p.chips then Err(BelowMinimumRaise)
          else
            var q :- InvestChips(p, additional);
            if raiseSize >= b.minRaise then
              Ok(Moved(Betting(MarkFullAggression(b.players[i := q], i), raiseTo, raiseSize, Some(p.seatNo)),
                additional))
            else Ok(Moved(b.(players := SetActed(b.players[i := q], i), currentBet := raiseTo), additional))
    case AllInMove =>
      if p.chips <= 0 then Err(NoChipsForAllIn)
      else
        var total := p.investedThisStreet + p.chips;
        var q :- InvestChips(p, p.chips);
        if total > b.currentBet then
          var raiseSize := total - b.currentBet;
          // a first chip on the street (total == amount) counts as a full raise
          if total == p.chips || raiseSize >= b.minRaise then
            Ok(Moved(Betting(MarkFullAggression(b.players[i := q], i), total, Max(b.minRaise, raiseSize),
              Some(p.seatNo)), p.chips))
          else Ok(Moved(b.(players := SetActed(b.players[i := q], i), currentBet := total), p.chips))
        else Ok(Moved(b.(players := SetActed(b.players[i := q], i)), p.chips))
  }

  // ---------- finishing a hand ----------

  function ContenderCount(players: seq<Player>): nat {
    if players == [] then 0
    else ContenderCount(players[..|players| - 1]) + (if Contends(players[|players| - 1].status) then 1 else 0)
  }

  /** Position of contenders[0], or the length when nobody contends. */
  function FirstContender(players: seq<Player>): (k: nat)
    ensures k <= |players|
    ensures k < |players| ==> Contends(players[k].status)
    ensures forall j :: 0 <= j < k ==> !Contends(players[j].status)
  {
    if players == [] then 0 else if Contends(players[0].status) then 0 else 1 + FirstContender(players[1..])
  }

  lemma {:induction false} ContenderFound(players: seq<Player>)
    ensures ContenderCount(players) > 0 <==> exists i :: 0 <= i < |players| && Contends(players[i].status)
  {
    if players != [] {
      var n := |players| - 1;
      ContenderFound(players[..n]);
      if i :| 0 <= i < |players| && Contends(players[i].status) {
        assert i < n ==> Contends(players[..n][i].status);
      }
    }
  }

  predicate NobodyCanBet(players: seq<Player>) {
    forall i :: 0 <= i < |players| && Contends(players[i].status) ==>
      players[i].status == AllIn || players[i].chips == 0
  }

  function FinishByFold(s: GameState, winner: nat): GameState
    requires winner < |s.players|
  {
    var w := s.players[winner];
    s.(
      players := s.players[winner := w.(chips := w.chips + s.pot)],
      status := HandFinished,
      street := Showdown,
      currentBet := 0,
      turn := None,
      winnerInfo := Some(WinnerInfo(AllOthersFolded, s.board, s.pot,
        [PotResult(s.pot, [w.seatNo], [WinnerLine(w.seatNo, s.pot, None)])])))
  }

  function DealBoardToFive(s: GameState): Result<GameState, EngineError>
    decreases 5 - |s.board|
  {
    if |s.board| >= 5 then Ok(s)
    else
      var dealt := DealCards(s.deck, 1);
      if dealt.Err? then Err(DeckExhausted)
      else DealBoardToFive(s.(deck := dealt.value.deck, board := s.board + dealt.value.cards))
  }

  /** evaluatedBySeatNo: every contender's best hand. */
  function EvaluateContenders(players: seq<Player>, board: seq<Card>)
      : Result<map<int, Evaluator.EvaluatedHand>, EngineError> {
    if players == [] then Ok(map[])
    else
      var n := |players| - 1;
      var rest :- EvaluateContenders(players[..n], board);
      if !Contends(players[n].status) then Ok(rest)
      else
        var hand := Evaluator.EvaluateSeven(players[n].holeCards + board);
        if hand.Err? then Err(HandNotSevenCards) else Ok(rest[players[n].seatNo := hand.value])
  }

  function RankValues(hands: map<int, Evaluator.EvaluatedHand>): map<int, int> {
    map seat | seat in hands :: hands[seat].rankValue
  }

  /** The fields pot.ts reads. */
  function PotView(players: seq<Player>): seq<PotPlayer> {
    seq(|players|, i requires 0 <= i < |players| =>
      PotPlayer(players[i].seatNo, players[i].investedThisHand, players[i].status))
  }

  function PayAll(players: seq<Player>, allocations: seq<Allocation>): seq<Player> {
    seq(|players|, i requires 0 <= i < |players| =>
      players[i].(chips := players[i].chips + Collected(allocations, players[i].seatNo)))
  }

  function WinnerLines(a: Allocation, hands: map<int, Evaluator.EvaluatedHand>): seq<WinnerLine> {
    seq(|a.winners|, k requires 0 <= k < |a.winners| =>
      WinnerLine(a.winners[k], Lookup(a.payouts, a.winners[k]),
        if a.winners[k] in hands then Some(hands[a.winners[k]]) else None))
  }

  function PotResults(allocations: seq<Allocation>, hands: map<int, Evaluator.EvaluatedHand>): seq<PotResult> {
    seq(|allocations|, k requires 0 <= k < |allocations| =>
      PotResult(allocations[k].pot.amount, allocations[k].pot.eligible, WinnerLines(allocations[k], hands)))
  }

  /** finishByShowdown once the contenders' hands are known. */
  function SettleShowdown(s: GameState, hands: map<int, Evaluator.EvaluatedHand>): GameState {
    var allocations := AllocateAll(SidePots(PotView(s.players)), RankValues(hands));
    s.(
      players := PayAll(s.players, allocations),
      status := HandFinished,
      street := Showdown,
      currentBet := 0,
      turn := None,
      winnerInfo := Some(WinnerInfo(ShowdownReached, s.board, s.pot, PotResults(allocations, hands))))
  }

  function FinishByShowdown(s: GameState): Result<GameState, EngineError> {
    var t :- DealBoardToFive(s);
    var hands :- EvaluateContenders(t.players, t.board);
    Ok(SettleShowdown(t, hands))
  }

  // ---------- streets ----------

  function CardsToDeal(street: Street): nat {
    match street case Preflop => 3 case Flop => 1 case Turn => 1 case _ => 0
  }

  function NextStreet(street: Street): Street {
    match street case Preflop => Flop case Flop => Turn case Turn => River case _ => Showdown
  }

  function ResetStreet(players: seq<Player>): seq<Player> {
    seq(|players|, i requires 0 <= i < |players| => players[i].(investedThisStreet := 0, hasActed := false))
  }

  function AdvanceStreet(s: GameState): Result<GameState, EngineError> {
    var dealt := DealCards(s.deck, CardsToDeal(s.street));
    if dealt.Err? then Err(DeckExhausted)
    else
      var players := ResetStreet(s.players);
      Ok(s.(
        deck := dealt.value.deck,
        board := s.board + dealt.value.cards,
        street := NextStreet(s.street),
        currentBet := 0,
        minRaise := s.bigBlind,
        lastAggressor := None,
        players := players,
        turn := FirstActionableSeatAfter(players, 0, s.dealerSeat)))
  }

  function StreetsLeft(street: Street): nat {
    match street case Preflop => 4 case Flop => 3 case Turn => 2 case River => 1 case Showdown => 0
  }

  function WithPot(s: GameState): GameState {
    s.(pot := TotalInvested(s.players))
  }

  function PassTurn(s: GameState, from: int): GameState {
    s.(turn := FirstActionableSeatAfter(s.players, s.currentBet, from))
  }

  function NormalizeAfterAction(s: GameState, from: int): Result<GameState, EngineError>
    requires s.street != Showdown
    decreases StreetsLeft(s.street)
  {
    var s := WithPot(s);
    var contenders := ContenderCount(s.players);
    if contenders == 1 then
      ContenderFound(s.players);
      Ok(FinishByFold(s, FirstContender(s.players)))
    else if contenders > 1 && NobodyCanBet(s.players) then
      var t :- DealBoardToFive(s);
      FinishByShowdown(t)
    else if IsBettingRoundComplete(s.players, s.currentBet) then
      if s.street == River then FinishByShowdown(s)
      else
        var t :- AdvanceStreet(s);
        if t.turn == None then NormalizeAfterAction(t, from) else Ok(t)
    else Ok(PassTurn(s, from))
  }

  // ---------- applyGameAction ----------

  datatype Input = Input(seatNo: int, userId: Option<int>, move: Move, amount: Option<int>)

  function BettingOf(s: GameState): Betting {
    Betting(s.players, s.currentBet, s.minRaise, s.lastAggressor)
  }

  /** The state after the mutation and the history row, before normalizing. */
  function Record(s: GameState, i: nat, move: Move, moved: Moved): GameState
    requires i < |s.players|
  {
    s.(
      players := moved.betting.players,
      currentBet := moved.betting.currentBet,
      minRaise := moved.betting.minRaise,
      lastAggressor := moved.betting.lastAggressor,
      pot := TotalInvested(moved.betting.players),
      history := s.history + [Entry(s.players[i].seatNo, Played(move), moved.amount, s.street)])
  }

  /** A hand that is still being played is not at the showdown. */
  predicate OnAStreet(s: GameState) {
    s.status == Playing ==> s.street != Showdown
  }

  function ApplyGameAction(s: GameState, input: Input): Result<GameState, EngineError>
    requires OnAStreet(s)
  {
    var i := PositionOf(s.players, input.seatNo);
    if i == |s.players| then Err(SeatMissing)
    else if s.status != Playing then Err(NotPlayable)
    else if s.turn != Some(input.seatNo) then Err(NotYourTurn)
    else if s.players[i].userId.Some? && input.userId.Some? && s.players[i].userId != input.userId then
      Err(IdentityMismatch)
    else if s.players[i].status != Active || s.players[i].chips <= 0 then Err(CannotAct)
    else
      var moved :- ApplyMove(BettingOf(s), i, input.move, input.amount);
      NormalizeAfterAction(Record(s, i, input.move, moved), input.seatNo)
  }

  // ---------- createInitialGameState ----------

  datatype SeatInput = SeatInput(seatNo: int, userId: Option<int>, chips: int)

  datatype Setup = Setup(smallBlind: int, bigBlind: int, players: seq<SeatInput>, dealerSeat: Option<int>,
      deck: seq<Card>)

  predicate SeatLeq(a: SeatInput, b: SeatInput) {
    a.seatNo <= b.seatNo
  }

  function WithChips(inputs: seq<SeatInput>): seq<SeatInput> {
    if inputs == [] then []
    else
      var n := |inputs| - 1;
      if inputs[n].chips > 0 then WithChips(inputs[..n]) + [inputs[n]] else WithChips(inputs[..n])
  }

  function SeatNumbers(inputs: seq<SeatInput>): seq<int> {
    seq(|inputs|, i requires 0 <= i < |inputs| => inputs[i].seatNo)
  }

  function Seated(input: SeatInput): Player {
    Player(input.seatNo, input.userId, [], input.chips, input.chips, 0, 0,
      if input.chips > 0 then Active else Out, false)
  }

  function SeatAll(inputs: seq<SeatInput>): seq<Player> {
    seq(|inputs|, i requires 0 <= i < |inputs| => Seated(inputs[i]))
  }

  datatype Dealing = Dealing(players: seq<Player>, deck: seq<Card>)

  /** One card to each player from position i on who is not OUT. */
  function DealRound(d: Dealing, i: nat): Result<Dealing, EngineError>
    requires i <= |d.players|
    decreases |d.players| - i
  {
    if i == |d.players| then Ok(d)
    else if d.players[i].status == Out then DealRound(d, i + 1)
    else
      var dealt := DealCards(d.deck, 1);
      if dealt.Err? then Err(DeckExhausted)
      else
        var p := d.players[i];
        DealRound(Dealing(d.players[i := p.(holeCards := p.holeCards + dealt.value.cards)], dealt.value.deck), i + 1)
  }

  function PostBlind(s: GameState, seat: int, blind: int, kind: EntryKind): Result<GameState, EngineError> {
    var k := PositionOf(s.players, seat);
    if k == |s.players| then Err(SeatMissing)
    else
      var posted := Min(s.players[k].chips, blind);
      var q :- InvestChips(s.players[k], posted);
      Ok(s.(players := s.players[k := q], history := s.history + [Entry(seat, kind, posted, Preflop)]))
  }

  function Opening(setup: Setup, blinds: Blinds, d: Dealing): GameState {
    GameState(Playing, Preflop, d.deck, [], 0, 0, setup.bigBlind, blinds.dealerSeat, blinds.smallBlindSeat,
      blinds.bigBlindSeat, setup.smallBlind, setup.bigBlind, None, Some(blinds.bigBlindSeat), d.players, [], None)
  }

  function LiveSeats(inputs: seq<SeatInput>): seq<int> {
    SeatNumbers(Sort(WithChips(inputs), SeatLeq))
  }

  function ResolveSetup(setup: Setup): Result<Blinds, EngineError> {
    var live := LiveSeats(setup.players);
    if |live| < 2 then Err(TooFewPlayers)
    else ResolveBlindSeats(live, NormalizeDealerSeat(setup.dealerSeat.GetOr(live[0]), live))
  }

  /** After both blinds: the bet, the pot and the first turn. */
  function OpenBetting(s: GameState): GameState {
    var bet := if s.players == [] then 0 else MaxStreet(s.players);
    s.(currentBet := bet, pot := TotalInvested(s.players),
      turn := FirstActionableSeatAfter(s.players, bet, s.bigBlindSeat))
  }

  /** Both blinds and the opening turn on a dealt table. */
  function StartBetting(s0: GameState): Result<GameState, EngineError>
    requires s0.street != Showdown
  {
    var s1 :- PostBlind(s0, s0.smallBlindSeat, s0.smallBlind, SmallBlindPost);
    var s2 :- PostBlind(s1, s0.bigBlindSeat, s0.bigBlind, BigBlindPost);
    NormalizeAfterAction(OpenBetting(s2), s0.bigBlindSeat)
  }

  function CreateInitialGameState(setup: Setup): Result<GameState, EngineError> {
    var blinds :- ResolveSetup(setup);
    var first :- DealRound(Dealing(SeatAll(Sort(setup.players, SeatLeq)), setup.deck), 0);
    var second :- DealRound(first, 0);
    StartBetting(Opening(setup, blinds, second))
  }
}
