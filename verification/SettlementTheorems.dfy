/** What the greedy settlement promises: few, positive transfers that square
    everybody's cumulative net. */
module SettlementTheorems {
  import opened Sequences
  import opened Ledger
  import opened LedgerTheorems
  import opened Settlement

  function AmountsOf(ps: seq<Party>): seq<int> {
    seq(|ps|, i requires 0 <= i < |ps| => ps[i].amount)
  }

  function Total(ps: seq<Party>): int {
    Sum(AmountsOf(ps))
  }

  function Moved(ts: seq<Transfer>): int {
    if ts == [] then 0 else ts[0].amount + Moved(ts[1..])
  }

  function PaidBy(ts: seq<Transfer>, id: nat): int {
    if ts == [] then 0 else (if ts[0].payer == id then ts[0].amount else 0) + PaidBy(ts[1..], id)
  }

  function ReceivedBy(ts: seq<Transfer>, id: nat): int {
    if ts == [] then 0 else (if ts[0].payee == id then ts[0].amount else 0) + ReceivedBy(ts[1..], id)
  }

  lemma TotalFromLeft(ps: seq<Party>)
    requires ps != []
    ensures Total(ps) == ps[0].amount + Total(ps[1..])
  {
    assert AmountsOf(ps) == [ps[0].amount] + AmountsOf(ps[1..]);
    SumConcat([ps[0].amount], AmountsOf(ps[1..]));
    assert [ps[0].amount][..0] == [];
  }

  lemma ReducedTotal(ps: seq<Party>, amount: int)
    requires ps != []
    ensures Total(Reduced(ps, amount)) == Total(ps) - ps[0].amount + amount
  {
    TotalFromLeft(ps);
    if amount != 0 {
      TotalFromLeft(Reduced(ps, amount));
      assert Reduced(ps, amount)[1..] == ps[1..];
    }
  }

  // ---------- one transfer ----------

  lemma SignsKept(ds: seq<Party>, cs: seq<Party>, paid: int)
    requires AllOwe(ds) && AllDue(cs) && ds != [] && cs != [] && paid == Min(-ds[0].amount, cs[0].amount)
    ensures AllOwe(Reduced(ds, ds[0].amount + paid)) && AllDue(Reduced(cs, cs[0].amount - paid))
    ensures |Reduced(ds, ds[0].amount + paid)| + |Reduced(cs, cs[0].amount - paid)| < |ds| + |cs|
  {
  }

  /** The first transfer and what it leaves. */
  lemma OneTransfer(ds: seq<Party>, cs: seq<Party>) returns (paid: Transfer, owing: seq<Party>, due: seq<Party>)
    requires AllOwe(ds) && AllDue(cs) && ds != [] && cs != []
    ensures 0 < paid.amount <= -ds[0].amount && paid.amount <= cs[0].amount
    ensures paid.payer == ds[0].id && paid.payee == cs[0].id
    ensures owing == Reduced(ds, ds[0].amount + paid.amount) && due == Reduced(cs, cs[0].amount - paid.amount)
    ensures AllOwe(owing) && AllDue(due) && |owing| + |due| < |ds| + |cs|
    ensures Match(ds, cs) == [paid] + Match(owing, due)
  {
    paid := Transfer(ds[0].id, cs[0].id, Min(-ds[0].amount, cs[0].amount));
    owing, due := Reduced(ds, ds[0].amount + paid.amount), Reduced(cs, cs[0].amount - paid.amount);
    SignsKept(ds, cs, paid.amount);
    MatchStep(ds, cs, paid, owing, due);
  }

  lemma TransferFirst(first: Transfer, rest: seq<Transfer>, id: nat)
    ensures PaidBy([first] + rest, id) == (if first.payer == id then first.amount else 0) + PaidBy(rest, id)
    ensures ReceivedBy([first] + rest, id) == (if first.payee == id then first.amount else 0) + ReceivedBy(rest, id)
    ensures Moved([first] + rest) == first.amount + Moved(rest)
  {
    assert ([first] + rest)[1..] == rest;
  }

  // ---------- how many transfers, and how much ----------

  ghost predicate AllPositive(ts: seq<Transfer>) {
    forall k :: 0 <= k < |ts| ==> ts[k].amount > 0
  }

  lemma {:induction false} FewTransfers(ds: seq<Party>, cs: seq<Party>)
    requires AllOwe(ds) && AllDue(cs)
    ensures AllPositive(Match(ds, cs))
    ensures ds == [] || cs == [] ==> Match(ds, cs) == []
    ensures ds != [] && cs != [] ==> |Match(ds, cs)| <= |ds| + |cs| - 1
    decreases |ds| + |cs|
  {
    if ds != [] && cs != [] {
      var paid, owing, due := OneTransfer(ds, cs);
      FewTransfers(owing, due);
    }
  }

  lemma {:induction false} OwedIsNegative(ds: seq<Party>)
    requires AllOwe(ds)
    ensures Total(ds) <= 0 && (Total(ds) == 0 <==> ds == [])
  {
    if ds != [] {
      TotalFromLeft(ds);
      OwedIsNegative(ds[1..]);
    }
  }

  lemma {:induction false} DueIsPositive(cs: seq<Party>)
    requires AllDue(cs)
    ensures Total(cs) >= 0 && (Total(cs) == 0 <==> cs == [])
  {
    if cs != [] {
      TotalFromLeft(cs);
      DueIsPositive(cs[1..]);
    }
  }

  lemma {:induction false} MovesTheSmallerSide(ds: seq<Party>, cs: seq<Party>)
    requires AllOwe(ds) && AllDue(cs)
    ensures Moved(Match(ds, cs)) == Min(-Total(ds), Total(cs))
    decreases |ds| + |cs|
  {
    OwedIsNegative(ds);
    DueIsPositive(cs);
    if ds != [] && cs != [] {
      var paid, owing, due := OneTransfer(ds, cs);
      MovesTheSmallerSide(owing, due);
      TransferFirst(paid, Match(owing, due), 0);
      TransferTotals(ds, cs, paid, owing, due);
    }
  }

  // ---------- each party ----------

  /** What the list holds for a party, 0 when the party is not in it. */
  function Held(ps: seq<Party>, id: nat): int {
    if ps == [] then 0 else if ps[0].id == id then ps[0].amount else Held(ps[1..], id)
  }

  ghost predicate IdsDiffer(ps: seq<Party>) {
    forall i, j :: 0 <= i < j < |ps| ==> ps[i].id != ps[j].id
  }

  lemma {:induction false} HeldAt(ps: seq<Party>, k: nat)
    requires IdsDiffer(ps) && k < |ps|
    ensures Held(ps, ps[k].id) == ps[k].amount
  {
    if k > 0 {
      HeldAt(ps[1..], k - 1);
    }
  }

  lemma {:induction false} NotHeld(ps: seq<Party>, id: nat)
    requires forall i :: 0 <= i < |ps| ==> ps[i].id != id
    ensures Held(ps, id) == 0
  {
    if ps != [] {
      NotHeld(ps[1..], id);
    }
  }

  lemma ReducedHeld(ps: seq<Party>, amount: int, id: nat)
    requires ps != [] && IdsDiffer(ps)
    ensures IdsDiffer(Reduced(ps, amount))
    ensures Held(Reduced(ps, amount), id) == if id == ps[0].id then amount else Held(ps, id)
  {
    if amount != 0 {
      assert Reduced(ps, amount)[1..] == ps[1..];
    } else if id == ps[0].id {
      NotHeld(ps[1..], id);
    }
  }

  lemma {:induction false} HeldSigned(ps: seq<Party>, id: nat)
    ensures AllOwe(ps) ==> Held(ps, id) <= 0
    ensures AllDue(ps) ==> Held(ps, id) >= 0
  {
    if ps != [] {
      HeldSigned(ps[1..], id);
    }
  }

  /** What one transfer leaves on both sides. */
  lemma TransferTotals(ds: seq<Party>, cs: seq<Party>, paid: Transfer, owing: seq<Party>, due: seq<Party>)
    requires ds != [] && cs != []
    requires owing == Reduced(ds, ds[0].amount + paid.amount) && due == Reduced(cs, cs[0].amount - paid.amount)
    ensures Total(owing) == Total(ds) + paid.amount && Total(due) == Total(cs) - paid.amount
  {
    ReducedTotal(ds, ds[0].amount + paid.amount);
    ReducedTotal(cs, cs[0].amount - paid.amount);
  }

  /** A party that had to move `share`, its side `own` in all, against `other` on the other side, has moved `moved`. */
  ghost predicate InFull(moved: int, share: int, own: int, other: int) {
    0 <= moved <= share && (own <= other ==> moved == share)
  }

  lemma {:induction false} DebtorSettles(ds: seq<Party>, cs: seq<Party>, id: nat)
    requires AllOwe(ds) && AllDue(cs) && IdsDiffer(ds)
    ensures InFull(PaidBy(Match(ds, cs), id), -Held(ds, id), -Total(ds), Total(cs))
    decreases |ds| + |cs|
  {
    if ds == [] || cs == [] {
      NothingMoves(ds, cs, id);
    } else {
      var paid, owing, due := OneTransfer(ds, cs);
      ReducedHeld(ds, ds[0].amount + paid.amount, id);
      DebtorSettles(owing, due, id);
      TransferTotals(ds, cs, paid, owing, due);
      TransferFirst(paid, Match(owing, due), id);
    }
  }

  lemma {:induction false} CreditorSettles(ds: seq<Party>, cs: seq<Party>, id: nat)
    requires AllOwe(ds) && AllDue(cs) && IdsDiffer(cs)
    ensures InFull(ReceivedBy(Match(ds, cs), id), Held(cs, id), Total(cs), -Total(ds))
    decreases |ds| + |cs|
  {
    if ds == [] || cs == [] {
      NothingMoves(ds, cs, id);
    } else {
      var paid, owing, due := OneTransfer(ds, cs);
      ReducedHeld(cs, cs[0].amount - paid.amount, id);
      CreditorSettles(owing, due, id);
      TransferTotals(ds, cs, paid, owing, due);
      TransferFirst(paid, Match(owing, due), id);
    }
  }

  lemma NothingMoves(ds: seq<Party>, cs: seq<Party>, id: nat)
    requires AllOwe(ds) && AllDue(cs) && (ds == [] || cs == [])
    ensures InFull(PaidBy(Match(ds, cs), id), -Held(ds, id), -Total(ds), Total(cs))
    ensures InFull(ReceivedBy(Match(ds, cs), id), Held(cs, id), Total(cs), -Total(ds))
  {
    HeldSigned(ds, id);
    HeldSigned(cs, id);
    OwedIsNegative(ds);
    DueIsPositive(cs);
  }

  /** Nobody pays more than owed, and everybody pays in full when the debts do not exceed the credits. */
  lemma DebtorPays(ds: seq<Party>, cs: seq<Party>, id: nat)
    requires AllOwe(ds) && AllDue(cs) && IdsDiffer(ds)
    ensures 0 <= PaidBy(Match(ds, cs), id) <= -Held(ds, id)
    ensures -Total(ds) <= Total(cs) ==> PaidBy(Match(ds, cs), id) == -Held(ds, id)
  {
    DebtorSettles(ds, cs, id);
  }

  /** Nobody receives more than due, and everybody receives it in full when the credits do not exceed the debts. */
  lemma CreditorReceives(ds: seq<Party>, cs: seq<Party>, id: nat)
    requires AllOwe(ds) && AllDue(cs) && IdsDiffer(cs)
    ensures 0 <= ReceivedBy(Match(ds, cs), id) <= Held(cs, id)
    ensures Total(cs) <= -Total(ds) ==> ReceivedBy(Match(ds, cs), id) == Held(cs, id)
  {
    CreditorSettles(ds, cs, id);
  }

  // ---------- the two sides of a summary ----------

  lemma {:induction false} SidesTotal(lines: seq<Party>)
    ensures Total(Above(lines)) + Total(Below(lines)) == Total(lines)
  {
    if lines != [] {
      var n := |lines| - 1;
      SidesTotal(lines[..n]);
      assert AmountsOf(lines)[..n] == AmountsOf(lines[..n]);
      assert AmountsOf(Above(lines[..n]) + [lines[n]])[..|Above(lines[..n])|] == AmountsOf(Above(lines[..n]));
      assert AmountsOf(Below(lines[..n]) + [lines[n]])[..|Below(lines[..n])|] == AmountsOf(Below(lines[..n]));
    }
  }

  lemma {:induction false} InsertTotal(ps: seq<Party>, p: Party, leq: (Party, Party) -> bool)
    ensures Total(Insert(ps, p, leq)) == Total(ps) + p.amount
  {
    var r := Insert(ps, p, leq);
    assert AmountsOf(r)[..|ps|] == AmountsOf(r[..|ps|]);
    if ps != [] {
      var n := |ps| - 1;
      assert AmountsOf(ps)[..n] == AmountsOf(ps[..n]);
      InsertTotal(ps[..n], p, leq);
      if leq(ps[n], p) {
        assert r[..|ps|] == ps;
      } else {
        assert r[..|ps|] == Insert(ps[..n], p, leq);
      }
    }
  }

  lemma {:induction false} SortTotal(ps: seq<Party>, leq: (Party, Party) -> bool)
    ensures Total(Sort(ps, leq)) == Total(ps)
  {
    if ps != [] {
      var n := |ps| - 1;
      SortTotal(ps[..n], leq);
      InsertTotal(Sort(ps[..n], leq), ps[n], leq);
      assert AmountsOf(ps)[..n] == AmountsOf(ps[..n]);
    }
  }

  lemma {:induction false} SidesShorter(lines: seq<Party>)
    ensures |Above(lines)| + |Below(lines)| <= |lines|
    ensures IdsDiffer(lines) ==> NoDup(Above(lines)) && NoDup(Below(lines))
  {
    if lines != [] {
      var n := |lines| - 1;
      SidesShorter(lines[..n]);
      if IdsDiffer(lines) {
        assert lines[n] !in lines[..n];
        SideMembers(lines[..n], lines[n]);
      }
    }
  }

  lemma SideIdsDiffer(lines: seq<Party>, side: seq<Party>)
    requires IdsDiffer(lines) && NoDup(side) && forall p :: p in side ==> p in lines
    ensures IdsDiffer(side)
  {
    forall i, j | 0 <= i < j < |side| ensures side[i].id != side[j].id {
      NoDupAt(side, i, j);
      assert side[i] in lines && side[j] in lines;
      var x :| 0 <= x < |lines| && lines[x] == side[i];
      var y :| 0 <= y < |lines| && lines[y] == side[j];
      assert x != y;
    }
  }

  lemma SortedSides(lines: seq<Party>)
    requires IdsDiffer(lines)
    ensures IdsDiffer(Debtors(lines)) && IdsDiffer(Creditors(lines))
  {
    SidesShorter(lines);
    SortNoDup(Below(lines), SmallerFirst);
    SortNoDup(Above(lines), LargerFirst);
    forall p | p in Debtors(lines) ensures p in lines {
      SortMembers(Below(lines), SmallerFirst, p);
      SideMembers(lines, p);
    }
    forall p | p in Creditors(lines) ensures p in lines {
      SortMembers(Above(lines), LargerFirst, p);
      SideMembers(lines, p);
    }
    SideIdsDiffer(lines, Debtors(lines));
    SideIdsDiffer(lines, Creditors(lines));
  }

  lemma HeldOnSide(lines: seq<Party>, side: seq<Party>, k: nat)
    requires IdsDiffer(lines) && IdsDiffer(side) && k < |lines| && forall p :: p in side ==> p in lines
    ensures Held(side, lines[k].id) == if lines[k] in side then lines[k].amount else 0
  {
    if lines[k] in side {
      var i :| 0 <= i < |side| && side[i] == lines[k];
      HeldAt(side, i);
    } else {
      forall i | 0 <= i < |side| ensures side[i].id != lines[k].id {
        assert side[i] in lines;
        var x :| 0 <= x < |lines| && lines[x] == side[i];
        assert x != k;
      }
      NotHeld(side, lines[k].id);
    }
  }

  /** The transfers GenerateSettlement returns for a summary. */
  function Settled(lines: seq<Party>): seq<Transfer> {
    Match(Debtors(lines), Creditors(lines))
  }

  lemma SideTotals(lines: seq<Party>)
    ensures Total(Debtors(lines)) == Total(Below(lines)) && Total(Creditors(lines)) == Total(Above(lines))
    ensures Total(Creditors(lines)) + Total(Debtors(lines)) == Total(lines)
  {
    SortTotal(Below(lines), SmallerFirst);
    SortTotal(Above(lines), LargerFirst);
    SidesTotal(lines);
  }

  /** The settlement is lean. */
  lemma SettlementIsLean(lines: seq<Party>, ts: seq<Transfer>)
    requires ts == Settled(lines)
    ensures Lean(ts, |Below(lines)|, |Above(lines)|, -Total(Below(lines)), Total(Above(lines)))
  {
    var ds, cs := SideMeasures(lines, ts);
    LeanBetween(ds, cs, ts);
  }

  lemma SideMeasures(lines: seq<Party>, ts: seq<Transfer>) returns (ds: seq<Party>, cs: seq<Party>)
    requires ts == Settled(lines)
    ensures AllOwe(ds) && AllDue(cs) && ts == Match(ds, cs)
    ensures |ds| == |Below(lines)| && Total(ds) == Total(Below(lines))
    ensures |cs| == |Above(lines)| && Total(cs) == Total(Above(lines))
  {
    ds, cs := Debtors(lines), Creditors(lines);
    SidesSigned(lines);
    SideTotals(lines);
  }

  /** Only positive transfers, fewer than there are debtors and creditors together, none when one side is empty, and in
      all the smaller of what is owed and what is due. */
  ghost predicate Lean(ts: seq<Transfer>, debtors: nat, creditors: nat, owed: int, due: int) {
    && AllPositive(ts) && Moved(ts) == Min(due, owed)
    && |ts| <= (if debtors == 0 || creditors == 0 then 0 else creditors + debtors - 1)
  }

  lemma LeanBetween(ds: seq<Party>, cs: seq<Party>, ts: seq<Transfer>)
    requires AllOwe(ds) && AllDue(cs) && ts == Match(ds, cs)
    ensures Lean(ts, |ds|, |cs|, -Total(ds), Total(cs))
  {
    FewTransfers(ds, cs);
    MovesTheSmallerSide(ds, cs);
  }

  /** When the nets add up to 0, what every participant receives minus what the participant pays is exactly the
      cumulative net. */
  lemma SettlementSquares(lines: seq<Party>, k: nat)
    requires IdsDiffer(lines) && Total(lines) == 0 && k < |lines|
    ensures ReceivedBy(Settled(lines), lines[k].id) - PaidBy(Settled(lines), lines[k].id) == lines[k].amount
  {
    var ds, cs, id := Debtors(lines), Creditors(lines), lines[k].id;
    SidesSigned(lines);
    SideTotals(lines);
    SortedSides(lines);
    DebtorPays(ds, cs, id);
    CreditorReceives(ds, cs, id);
    forall p ensures (p in ds <==> p in lines && p.amount < 0) && (p in cs <==> p in lines && p.amount > 0) {
      SortMembers(Below(lines), SmallerFirst, p);
      SortMembers(Above(lines), LargerFirst, p);
      SideMembers(lines, p);
    }
    HeldOnSide(lines, ds, k);
    HeldOnSide(lines, cs, k);
  }

  // ---------- from the locked hands to the settlement ----------

  /** The hands of one table whose participants are all still there. */
  ghost predicate HandsFit(participants: seq<Participant>, hands: seq<Hand>) {
    && (forall k :: 0 <= k < |participants| ==> participants[k].status == Active)
    && (forall h :: 0 <= h < |hands| ==> |hands[h].entries| <= |participants|)
  }

  function LockedNet(hands: seq<Hand>): int {
    if hands == [] then 0
    else
      var n := |hands| - 1;
      LockedNet(hands[..n]) + (if hands[n].status == Locked then Net(hands[n]) else 0)
  }

  function Nets(count: nat, hands: seq<Hand>): seq<int> {
    seq(count, k requires 0 <= k < count => NetOf(hands, k))
  }

  lemma PaddedSum(count: nat, h: Hand)
    requires |h.entries| <= count
    ensures Sum(seq(count, k requires 0 <= k < count => AmountOf(EntryOf(h.entries, k)))) == Net(h)
  {
    var padded, zeros := seq(count, k requires 0 <= k < count => AmountOf(EntryOf(h.entries, k))),
      seq(count - |h.entries|, _ => 0);
    assert padded == Amounts(h.entries) + zeros;
    SumConcat(Amounts(h.entries), zeros);
    SumZero(zeros);
  }

  /** The cumulative nets of all participants add up to the sums of the locked hands. */
  lemma {:induction false} NetsAddUp(count: nat, hands: seq<Hand>)
    requires forall h :: 0 <= h < |hands| ==> |hands[h].entries| <= count
    ensures Sum(Nets(count, hands)) == LockedNet(hands)
  {
    if hands == [] {
      SumZero(Nets(count, hands));
    } else {
      var n := |hands| - 1;
      NetsAddUp(count, hands[..n]);
      if hands[n].status == Locked {
        PaddedSum(count, hands[n]);
        SumPointwise(Nets(count, hands[..n]),
          seq(count, k requires 0 <= k < count => AmountOf(EntryOf(hands[n].entries, k))), Nets(count, hands));
      } else {
        assert Nets(count, hands) == Nets(count, hands[..n]);
      }
    }
  }

  lemma {:induction false} EverybodyListed(participants: seq<Participant>)
    requires forall k :: 0 <= k < |participants| ==> participants[k].status == Active
    ensures ActiveIds(participants) == seq(|participants|, i => i)
  {
    if participants != [] {
      EverybodyListed(participants[..|participants| - 1]);
    }
  }

  /** What one hand adds to participant k's result: k's own entry, once the hand is locked. */
  function OwnAmount(h: Hand, k: nat): int {
    if h.status == Locked && k < |h.entries| && h.entries[k].Some? then h.entries[k].value.amount else 0
  }

  function OwnAmounts(hands: seq<Hand>, k: nat): seq<int> {
    seq(|hands|, j requires 0 <= j < |hands| => OwnAmount(hands[j], k))
  }

  /** The cumulative net is the sum of the participant's own locked entries. */
  lemma {:induction false} NetIsOwn(hands: seq<Hand>, k: nat)
    ensures NetOf(hands, k) == Sum(OwnAmounts(hands, k))
  {
    if hands != [] {
      var n := |hands| - 1;
      NetIsOwn(hands[..n], k);
      assert OwnAmounts(hands, k)[..n] == OwnAmounts(hands[..n], k);
    }
  }

  ghost predicate HasLine(lines: seq<Party>, id: nat) {
    exists i :: 0 <= i < |lines| && lines[i].id == id
  }

  /** The summary has one line for each ACTIVE participant and for nobody else, with the sum of that participant's own
      locked entries. */
  lemma SummaryShows(participants: seq<Participant>, hands: seq<Hand>, k: nat)
    ensures var lines := Summary(participants, hands);
      && IdsDiffer(lines) && (HasLine(lines, k) <==> k < |participants| && participants[k].status == Active)
      && forall i :: 0 <= i < |lines| && lines[i].id == k ==> lines[i].amount == Sum(OwnAmounts(hands, k))
  {
    var lines, ids := Summary(participants, hands), ActiveIds(participants);
    ActiveIdsAre(participants);
    NetIsOwn(hands, k);
    if k in ids {
      var i :| 0 <= i < |ids| && ids[i] == k;
      assert lines[i].id == k;
    }
    if i :| 0 <= i < |lines| && lines[i].id == k {
      assert ids[i] in ids;
    }
  }

  /** If the amounts of every locked hand add up to 0, what every participant receives minus what the participant
      pays is the sum of the participant's own entries in the locked hands. */
  lemma BalancedHandsSettle(participants: seq<Participant>, hands: seq<Hand>, k: nat)
    requires HandsFit(participants, hands) && k < |participants|
    requires forall h :: 0 <= h < |hands| && hands[h].status == Locked ==> Net(hands[h]) == 0
    ensures var ts := Settled(Summary(participants, hands));
      ReceivedBy(ts, k) - PaidBy(ts, k) == Sum(OwnAmounts(hands, k))
  {
    var lines := Summary(participants, hands);
    EverybodyListed(participants);
    NetsAddUp(|participants|, hands);
    NothingLocked(hands);
    assert AmountsOf(lines) == Nets(|participants|, hands);
    SettlementSquares(lines, k);
    NetIsOwn(hands, k);
  }

  // ---------- from the submitted amounts to the settlement ----------

  /** The j-th hand is what is left after everybody has submitted the j-th amounts, which sum to 0, and confirmed
      them. */
  ghost predicate RoundsPlayed(h: Hand, rounds: seq<seq<int>>, hands: seq<Hand>) {
    && FreshHand(h) && |hands| == |rounds|
    && forall j :: 0 <= j < |rounds| ==> RoundPlayed(h, rounds[j], hands[j])
  }

  ghost predicate RoundPlayed(h: Hand, amounts: seq<int>, end: Hand) {
    && |amounts| == |h.participants| && Sum(amounts) == 0
    && end == LedgerRun(h, Submissions(h, amounts, |amounts|) + Confirmations(h, |amounts|))
  }

  lemma RoundEnds(h: Hand, amounts: seq<int>, end: Hand, k: nat)
    requires FreshHand(h) && RoundPlayed(h, amounts, end) && k < |amounts|
    ensures end.status == Locked && Net(end) == 0 && |end.entries| == |amounts| && OwnAmount(end, k) == amounts[k]
  {
    RoundLocks(h, amounts);
    assert |Amounts(end.entries)| == |amounts| && Amounts(end.entries)[k] == amounts[k];
  }

  /** Played from the first submission to the last confirmation, hand after hand: the settlement gives every participant
      exactly the sum of the amounts that participant submitted. */
  lemma SubmittedIsSettled(h: Hand, rounds: seq<seq<int>>, hands: seq<Hand>, k: nat)
    requires RoundsPlayed(h, rounds, hands) && k < |h.participants|
    ensures var ts := Settled(Summary(h.participants, hands));
      ReceivedBy(ts, k) - PaidBy(ts, k) ==
        Sum(seq(|rounds|, j requires 0 <= j < |rounds| => if k < |rounds[j]| then rounds[j][k] else 0))
  {
    forall j | 0 <= j < |hands|
      ensures hands[j].status == Locked && Net(hands[j]) == 0 && |hands[j].entries| <= |h.participants|
      ensures OwnAmount(hands[j], k) == rounds[j][k]
    {
      RoundEnds(h, rounds[j], hands[j], k);
    }
    BalancedHandsSettle(h.participants, hands, k);
    assert OwnAmounts(hands, k) ==
      seq(|rounds|, j requires 0 <= j < |rounds| => if k < |rounds[j]| then rounds[j][k] else 0);
  }

  lemma {:induction false} NothingLocked(hands: seq<Hand>)
    requires forall h :: 0 <= h < |hands| && hands[h].status == Locked ==> Net(hands[h]) == 0
    ensures LockedNet(hands) == 0
  {
    if hands != [] {
      NothingLocked(hands[..|hands| - 1]);
    }
  }

  // ---------- who pays whom first ----------

  ghost predicate Ascends(ps: seq<nat>) {
    forall x, y :: 0 <= x <= y < |ps| ==> ps[x] <= ps[y]
  }

  function Payers(ts: seq<Transfer>): seq<nat> {
    seq(|ts|, x requires 0 <= x < |ts| => ts[x].payer)
  }

  function Payees(ts: seq<Transfer>): seq<nat> {
    seq(|ts|, x requires 0 <= x < |ts| => ts[x].payee)
  }

  /** The ids are those of the parties at these places, which never go back. */
  ghost predicate WalksDown(parties: seq<Party>, ids: seq<nat>, places: seq<nat>) {
    && |places| == |ids| && Ascends(places)
    && forall x :: 0 <= x < |ids| ==> places[x] < |parties| && ids[x] == parties[places[x]].id
  }

  lemma StepDown(parties: seq<Party>, amount: int, ids: seq<nat>, places: seq<nat>) returns (from: seq<nat>)
    requires parties != [] && WalksDown(Reduced(parties, amount), ids, places)
    ensures WalksDown(parties, [parties[0].id] + ids, from)
  {
    var d := if amount == 0 then 1 else 0;
    from := [0] + seq(|places|, x requires 0 <= x < |places| => places[x] + d);
  }

  /** The transfers walk down both lists. */
  lemma {:induction false} MatchWalks(ds: seq<Party>, cs: seq<Party>) returns (ps: seq<nat>, qs: seq<nat>)
    requires AllOwe(ds) && AllDue(cs)
    ensures WalksDown(ds, Payers(Match(ds, cs)), ps) && WalksDown(cs, Payees(Match(ds, cs)), qs)
    decreases |ds| + |cs|
  {
    if ds == [] || cs == [] {
      ps, qs := [], [];
    } else {
      var paid := Min(-ds[0].amount, cs[0].amount);
      var owing, due := Reduced(ds, ds[0].amount + paid), Reduced(cs, cs[0].amount - paid);
      SignsKept(ds, cs, paid);
      var rest := Match(owing, due);
      var later, later' := MatchWalks(owing, due);
      ps := StepDown(ds, ds[0].amount + paid, Payers(rest), later);
      qs := StepDown(cs, cs[0].amount - paid, Payees(rest), later');
      MatchSides(ds, cs, paid, rest);
    }
  }

  lemma MatchSides(ds: seq<Party>, cs: seq<Party>, paid: int, rest: seq<Transfer>)
    requires ds != [] && cs != [] && paid == Min(-ds[0].amount, cs[0].amount)
    requires rest == Match(Reduced(ds, ds[0].amount + paid), Reduced(cs, cs[0].amount - paid))
    ensures Payers(Match(ds, cs)) == [ds[0].id] + Payers(rest)
    ensures Payees(Match(ds, cs)) == [cs[0].id] + Payees(rest)
  {
    MatchUnfolds(ds, cs, paid);
    SidesOfOneMore(Transfer(ds[0].id, cs[0].id, paid), rest);
  }

  lemma MatchUnfolds(ds: seq<Party>, cs: seq<Party>, paid: int)
    requires ds != [] && cs != [] && paid == Min(-ds[0].amount, cs[0].amount)
    ensures Match(ds, cs) ==
      [Transfer(ds[0].id, cs[0].id, paid)] + Match(Reduced(ds, ds[0].amount + paid), Reduced(cs, cs[0].amount - paid))
  {
  }

  lemma SidesOfOneMore(first: Transfer, rest: seq<Transfer>)
    ensures Payers([first] + rest) == [first.payer] + Payers(rest)
    ensures Payees([first] + rest) == [first.payee] + Payees(rest)
  {
  }

  /** On a sorted side an earlier place holds no smaller a debt or credit. */
  lemma EarlierIsLarger(side: seq<Party>, leq: (Party, Party) -> bool, lines: seq<Party>, p: nat, q: nat, a: nat,
      b: nat)
    requires SortedBy(side, leq) && a <= b < |side| && p < |lines| && q < |lines| && IdsDiffer(lines)
    requires (forall x :: leq(x, x)) && side[a] in lines && side[b] in lines
    requires lines[p].id == side[a].id && lines[q].id == side[b].id
    ensures leq(lines[p], lines[q])
  {
    var i :| 0 <= i < |lines| && lines[i] == side[a];
    var j :| 0 <= j < |lines| && lines[j] == side[b];
  }

  lemma SideIsListed(lines: seq<Party>, party: Party)
    ensures party in Debtors(lines) || party in Creditors(lines) ==> party in lines
  {
    SortMembers(Below(lines), SmallerFirst, party);
    SortMembers(Above(lines), LargerFirst, party);
    SideMembers(lines, party);
  }

  /** The largest debts are settled first: of two transfers the earlier one comes from no smaller a debt. */
  lemma LargestDebtFirst(lines: seq<Party>, x: nat, y: nat, p: nat, q: nat)
    requires IdsDiffer(lines) && x <= y < |Settled(lines)| && p < |lines| && q < |lines|
    requires lines[p].id == Settled(lines)[x].payer && lines[q].id == Settled(lines)[y].payer
    ensures lines[p].amount <= lines[q].amount
  {
    var ds := Debtors(lines);
    SidesSigned(lines);
    var ps, qs := MatchWalks(ds, Creditors(lines));
    assert Payers(Settled(lines))[x] == lines[p].id && Payers(Settled(lines))[y] == lines[q].id;
    assert TotalPreorder(SmallerFirst);
    SortSorted(Below(lines), SmallerFirst);
    SideIsListed(lines, ds[ps[x]]);
    SideIsListed(lines, ds[ps[y]]);
    EarlierIsLarger(ds, SmallerFirst, lines, p, q, ps[x], ps[y]);
  }

  /** The largest credits are settled first: of two transfers the earlier one goes to no smaller a credit. */
  lemma LargestCreditFirst(lines: seq<Party>, x: nat, y: nat, p: nat, q: nat)
    requires IdsDiffer(lines) && x <= y < |Settled(lines)| && p < |lines| && q < |lines|
    requires lines[p].id == Settled(lines)[x].payee && lines[q].id == Settled(lines)[y].payee
    ensures lines[p].amount >= lines[q].amount
  {
    var cs := Creditors(lines);
    SidesSigned(lines);
    var ps, qs := MatchWalks(Debtors(lines), cs);
    assert Payees(Settled(lines))[x] == lines[p].id && Payees(Settled(lines))[y] == lines[q].id;
    assert TotalPreorder(LargerFirst);
    SortSorted(Above(lines), LargerFirst);
    SideIsListed(lines, cs[qs[x]]);
    SideIsListed(lines, cs[qs[y]]);
    EarlierIsLarger(cs, LargerFirst, lines, p, q, qs[x], qs[y]);
  }
}
