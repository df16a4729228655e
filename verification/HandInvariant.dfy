/** The invariant of a hand in play, and its preservation by one action. */
module HandInvariant {
  import opened Sequences
  import opened Pots
  import opened Engine
  import opened TurnOrder

  // ---------- one player, one table ----------

  ghost predicate PlayerOk(p: Player) {
    && 0 <= p.chips && 0 <= p.investedThisStreet <= p.investedThisHand
    && p.chips + p.investedThisHand == p.startHandChips
    && p.status != SittingOut
    && (p.status == Active ==> p.chips > 0)
    && (p.status == AllIn ==> p.chips == 0)
    && (p.status == Out ==> p.startHandChips == 0)
    && (p.status != Out ==> |p.holeCards| == 2)
  }

  /** currentBet is the largest investment on the street. */
  ghost predicate BetIsMax(players: seq<Player>, bet: int) {
    && bet >= 0
    && (forall i :: 0 <= i < |players| ==> players[i].investedThisStreet <= bet)
    && (exists i :: 0 <= i < |players| && players[i].investedThisStreet == bet)
  }

  /** What a player had invested when the street began. */
  function Before(p: Player): int {
    p.investedThisHand - p.investedThisStreet
  }

  /** ACTIVE players entered the street level with each other and nobody entered it ahead of them; whoever put chips in
      on the street entered it level with them too. */
  ghost predicate LevelStart(players: seq<Player>) {
    forall i, j :: 0 <= i < |players| && 0 <= j < |players| && players[i].status == Active ==>
      Before(players[j]) <= Before(players[i])
      && (players[j].investedThisStreet > 0 ==> Before(players[j]) == Before(players[i]))
  }

  ghost predicate TableOk(players: seq<Player>, bet: int) {
    && |players| >= 2 && SeatsAscend(players)
    && (forall i :: 0 <= i < |players| ==> PlayerOk(players[i]))
    && BetIsMax(players, bet) && LevelStart(players)
  }

  /** Some contender has invested at least x. */
  ghost predicate ContenderReaches(players: seq<Player>, x: int) {
    exists c :: 0 <= c < |players| && Contends(players[c].status) && players[c].investedThisHand >= x
  }

  /** Nobody invested more than every contender. */
  ghost predicate Covered(players: seq<Player>) {
    forall f :: 0 <= f < |players| ==> CoveredAt(players, f)
  }

  ghost predicate CoveredAt(players: seq<Player>, f: nat)
    requires f < |players|
  {
    ContenderReaches(players, players[f].investedThisHand)
  }

  lemma CoveredBy(players: seq<Player>, f: nat) returns (c: nat)
    requires Covered(players) && f < |players|
    ensures c < |players| && Contends(players[c].status) && players[c].investedThisHand >= players[f].investedThisHand
  {
    assert CoveredAt(players, f);
    c :| 0 <= c < |players| && Contends(players[c].status)
      && players[c].investedThisHand >= players[f].investedThisHand;
  }

  ghost predicate SomeoneActive(players: seq<Player>) {
    exists i :: 0 <= i < |players| && players[i].status == Active
  }

  // ---------- the blind's option ----------

  /** A player who has matched the bet without acting on it: only a blind can be in this position. */
  predicate HoldsOption(p: Player, bet: int) {
    CanAct(p) && !p.hasActed && p.investedThisStreet == bet && bet > 0
  }

  /** Seen from position a, everyone who has to act comes before the holder of the option. */
  ghost predicate OptionBehind(players: seq<Player>, bet: int, a: nat)
    requires a < |players|
  {
    var n := |players|;
    forall p, q ::
      0 <= p < n && 0 <= q < n && p != q && HoldsOption(players[p], bet) && NeedsAction(players[q], bet) ==>
      Distance(a, q, n) < Distance(a, p, n)
  }

  /** The same with the player on turn counted as distance zero. */
  ghost predicate OptionAtTurn(players: seq<Player>, bet: int, t: nat)
    requires t < |players|
  {
    var n := |players|;
    forall p, q ::
      0 <= p < n && 0 <= q < n && p != q && HoldsOption(players[p], bet) && NeedsAction(players[q], bet) ==>
      p != t && (q == t || Distance(t, q, n) < Distance(t, p, n))
  }

  lemma OptionMovesOn(players: seq<Player>, bet: int, a: nat, t: nat)
    requires a < |players| && OptionBehind(players, bet, a) && ActsNext(players, bet, a, t)
    ensures OptionAtTurn(players, bet, t)
  {
    var n := |players|;
    forall p, q | 0 <= p < n && 0 <= q < n && p != q && HoldsOption(players[p], bet) && NeedsAction(players[q], bet)
      ensures p != t && (q == t || Distance(t, q, n) < Distance(t, p, n))
    {
      assert Distance(a, t, n) <= Distance(a, q, n) < Distance(a, p, n);
    }
  }

  // ---------- the invariant ----------

  function BoardSize(street: Street): nat {
    match street case Preflop => 0 case Flop => 3 case Turn => 4 case _ => 5
  }

  ghost predicate BoardFits(s: GameState) {
    |s.board| == BoardSize(s.street) && |s.board| + |s.deck| >= 5
  }

  ghost predicate SeatTaken(players: seq<Player>, seat: int) {
    exists k :: 0 <= k < |players| && players[k].seatNo == seat
  }

  ghost predicate TurnAt(s: GameState, t: nat) {
    && t < |s.players| && s.turn == Some(s.players[t].seatNo)
    && NeedsAction(s.players[t], s.currentBet)
    && OptionAtTurn(s.players, s.currentBet, t)
  }

  /** Everything but whose turn it is. */
  ghost predicate Underway(s: GameState) {
    && s.status == Playing && s.street != Showdown
    && TableOk(s.players, s.currentBet)
    && s.minRaise > 0 && s.bigBlind > 0
    && BoardFits(s) && SeatTaken(s.players, s.dealerSeat)
  }

  ghost predicate Inv(s: GameState) {
    && Underway(s)
    && s.pot == TotalInvested(s.players)
    && Covered(s.players)
    && ContenderCount(s.players) >= 2
    && exists t: nat :: TurnAt(s, t)
  }

  // ---------- what a move does ----------

  /** The whole effect of an accepted action by position i, in one shape for all six moves. */
  ghost predicate Effect(b: Betting, i: nat, m: Betting, amount: int, fold: bool)
    requires i < |b.players|
  {
    && |m.players| == |b.players|
    && (forall k :: 0 <= k < |b.players| && k != i ==> m.players[k] == b.players[k].(hasActed := m.players[k].hasActed))
    && (m.currentBet == b.currentBet ==> forall k :: 0 <= k < |b.players| && k != i ==> m.players[k] == b.players[k])
    && 0 <= amount <= b.players[i].chips
    && m.players[i] == Spent(b.players[i], amount, fold)
    && m.currentBet == Max(b.currentBet, m.players[i].investedThisStreet)
    && (m.players[i].status == Active ==> m.players[i].investedThisStreet == m.currentBet)
    && (fold ==> amount == 0)
    && m.minRaise > 0
  }

  function Spent(p: Player, amount: int, fold: bool): Player {
    p.(chips := p.chips - amount,
       investedThisStreet := p.investedThisStreet + amount,
       investedThisHand := p.investedThisHand + amount,
       status := if fold then Folded else if p.chips == amount then AllIn else Active,
       hasActed := true)
  }

  lemma MoveHasEffect(b: Betting, i: nat, move: Move, amount: Option<int>)
    requires i < |b.players| && CanAct(b.players[i]) && b.minRaise > 0
    requires 0 <= b.players[i].investedThisStreet <= b.currentBet
    requires ApplyMove(b, i, move, amount).Ok?
    ensures var m := ApplyMove(b, i, move, amount).value; Effect(b, i, m.betting, m.amount, move == Fold)
    ensures move == Check || move == Fold <==> ApplyMove(b, i, move, amount).value.amount == 0
  {
  }

  lemma EffectPlayers(b: Betting, i: nat, m: Betting, amount: int, fold: bool)
    requires i < |b.players| && Effect(b, i, m, amount, fold) && TableOk(b.players, b.currentBet)
    requires CanAct(b.players[i])
    ensures |m.players| >= 2 && SeatsAscend(m.players)
    ensures forall k :: 0 <= k < |m.players| ==> PlayerOk(m.players[k]) && m.players[k].seatNo == b.players[k].seatNo
    ensures BetIsMax(m.players, m.currentBet)
  {
    var top :| 0 <= top < |b.players| && b.players[top].investedThisStreet == b.currentBet;
    assert PlayerOk(b.players[i]);
    if m.currentBet == m.players[i].investedThisStreet {
      assert BetIsMax(m.players, m.currentBet);
    } else {
      assert m.players[top].investedThisStreet == m.currentBet;
    }
  }

  lemma EffectLevel(b: Betting, i: nat, m: Betting, amount: int, fold: bool)
    requires i < |b.players| && Effect(b, i, m, amount, fold) && TableOk(b.players, b.currentBet)
    requires CanAct(b.players[i])
    ensures LevelStart(m.players)
  {
    forall x, y | 0 <= x < |m.players| && 0 <= y < |m.players| && m.players[x].status == Active
      ensures Before(m.players[y]) <= Before(m.players[x])
      ensures m.players[y].investedThisStreet > 0 ==> Before(m.players[y]) == Before(m.players[x])
    {
      assert b.players[x].status == Active && Before(m.players[x]) == Before(b.players[x]);
      assert Before(m.players[y]) == Before(b.players[y]);
    }
  }

  lemma EffectKeepsTable(b: Betting, i: nat, m: Betting, amount: int, fold: bool)
    requires i < |b.players| && Effect(b, i, m, amount, fold) && TableOk(b.players, b.currentBet)
    requires CanAct(b.players[i])
    ensures TableOk(m.players, m.currentBet)
  {
    EffectPlayers(b, i, m, amount, fold);
    EffectLevel(b, i, m, amount, fold);
  }

  /** After an action the option, if anyone still holds it, is last in line behind the actor. */
  lemma EffectKeepsOption(b: Betting, i: nat, m: Betting, amount: int, fold: bool)
    requires i < |b.players| && Effect(b, i, m, amount, fold) && TableOk(b.players, b.currentBet)
    requires CanAct(b.players[i]) && OptionAtTurn(b.players, b.currentBet, i)
    ensures !NeedsAction(m.players[i], m.currentBet) && OptionBehind(m.players, m.currentBet, i)
  {
    var n := |m.players|;
    forall p, q | 0 <= p < n && 0 <= q < n && p != q
      && HoldsOption(m.players[p], m.currentBet) && NeedsAction(m.players[q], m.currentBet)
      ensures Distance(i, q, n) < Distance(i, p, n)
    {
      assert p != i && q != i;
      assert b.players[p].investedThisStreet == m.currentBet;
      assert m.currentBet == b.currentBet;
      assert HoldsOption(b.players[p], b.currentBet) && NeedsAction(b.players[q], b.currentBet);
    }
  }

  // ---------- who is covered by whom ----------

  lemma CoverWith(players: seq<Player>, f: nat, c: nat)
    requires f < |players| && c < |players| && Contends(players[c].status)
    requires players[c].investedThisHand >= players[f].investedThisHand
    ensures CoveredAt(players, f)
  {
  }

  /** A player who calls, bets or checks still reaches everything reached before. */
  lemma StayingCovers(b: Betting, i: nat, m: Betting, amount: int)
    requires i < |b.players| && Effect(b, i, m, amount, false) && Covered(b.players)
    ensures Covered(m.players)
  {
    forall f | 0 <= f < |m.players| ensures CoveredAt(m.players, f) {
      var c := CoveredBy(b.players, f);
      CoverWith(m.players, f, if f == i then i else c);
    }
  }

  /** Another ACTIVE player, or somebody that player can still be paid by, reaches what the player on turn put in. */
  lemma FolderIsReached(players: seq<Player>, bet: int, i: nat, other: nat) returns (c: nat)
    requires TableOk(players, bet) && Covered(players) && i < |players| && other < |players| && i != other
    requires NeedsAction(players[i], bet) && OptionAtTurn(players, bet, i) && players[other].status == Active
    ensures c < |players| && c != i && Contends(players[c].status)
    ensures players[c].investedThisHand >= players[i].investedThisHand
  {
    assert PlayerOk(players[other]) && PlayerOk(players[i]);
    if players[i].investedThisStreet < bet {
      var r :| 0 <= r < |players| && players[r].investedThisStreet == bet;
      assert Before(players[r]) == Before(players[i]);
      c := CoveredBy(players, r);
    } else {
      c := other;
      assert Before(players[other]) == Before(players[i]);
      if bet > 0 {
        assert HoldsOption(players[i], bet);
        assert !NeedsAction(players[other], bet);
      }
    }
  }

  /** A fold leaves everyone covered while another ACTIVE player remains. */
  lemma FoldingCovers(b: Betting, i: nat, m: Betting)
    requires i < |b.players| && Effect(b, i, m, 0, true) && TableOk(b.players, b.currentBet) && Covered(b.players)
    requires NeedsAction(b.players[i], b.currentBet) && OptionAtTurn(b.players, b.currentBet, i)
    requires SomeoneActive(m.players)
    ensures Covered(m.players)
  {
    var other :| 0 <= other < |m.players| && m.players[other].status == Active;
    var d := FolderIsReached(b.players, b.currentBet, i, other);
    forall f | 0 <= f < |m.players| ensures CoveredAt(m.players, f) {
      var c := CoveredBy(b.players, f);
      CoverWith(m.players, f, if c == i then d else c);
    }
  }

  // ---------- counting contenders ----------

  lemma {:induction false} TwoContenders(players: seq<Player>, x: nat, y: nat)
    requires x < y < |players| && Contends(players[x].status) && Contends(players[y].status)
    ensures ContenderCount(players) >= 2
  {
    var n := |players| - 1;
    if y < n {
      TwoContenders(players[..n], x, y);
    } else {
      ContenderFound(players[..n]);
      assert Contends(players[..n][x].status);
    }
  }

  lemma {:induction false} PairOfContenders(players: seq<Player>) returns (x: nat, y: nat)
    requires ContenderCount(players) >= 2
    ensures x < y < |players| && Contends(players[x].status) && Contends(players[y].status)
  {
    var n := |players| - 1;
    if Contends(players[n].status) {
      ContenderFound(players[..n]);
      x :| 0 <= x < n && Contends(players[..n][x].status);
      y := n;
    } else {
      x, y := PairOfContenders(players[..n]);
    }
  }

  /** One action removes at most one of two or more contenders. */
  lemma SomeoneStays(b: Betting, i: nat, m: Betting, amount: int, fold: bool)
    requires i < |b.players| && Effect(b, i, m, amount, fold) && ContenderCount(b.players) >= 2
    ensures ContenderCount(m.players) >= 1
    ensures !fold && Contends(b.players[i].status) ==> ContenderCount(m.players) >= 2
  {
    var x, y := PairOfContenders(b.players);
    var keep := if x == i then y else x;
    assert Contends(m.players[keep].status);
    ContenderFound(m.players);
    if !fold && Contends(b.players[i].status) {
      assert Contends(m.players[x].status) && Contends(m.players[y].status);
      TwoContenders(m.players, x, y);
    }
  }
}
