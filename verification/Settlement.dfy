/** apps/api/src/team-ledger/team-ledger.service.ts, getSummary and
    generateSettlement: cumulative results over the locked hands and the greedy
    list of transfers that settles them. Amounts are integer cents. */
module Settlement {
  import opened Sequences
  import opened Ledger

  // ---------- getSummary ----------

  /** A participant and an amount: the cumulative net, or what is left of it to settle. */
  datatype Party = Party(id: nat, amount: int)

  /** Cumulative net of participant k: the entries of the locked hands. */
  function NetOf(hands: seq<Hand>, k: nat): int {
    if hands == [] then 0
    else
      var n := |hands| - 1;
      NetOf(hands[..n], k) + (if hands[n].status == Locked then AmountOf(EntryOf(hands[n].entries, k)) else 0)
  }

  function ActiveIds(participants: seq<Participant>): seq<nat> {
    if participants == [] then []
    else
      var n := |participants| - 1;
      if participants[n].status == Active then ActiveIds(participants[..n]) + [n] else ActiveIds(participants[..n])
  }

  lemma {:induction false} ActiveIdsAre(participants: seq<Participant>)
    ensures forall x: nat :: x in ActiveIds(participants) <==> x < |participants| && participants[x].status == Active
    ensures StrictlyAscending(ActiveIds(participants))
  {
    if participants != [] {
      var n := |participants| - 1;
      var rest := ActiveIds(participants[..n]);
      ActiveIdsAre(participants[..n]);
      forall i | 0 <= i < |rest| ensures rest[i] < n {
        assert rest[i] in rest;
      }
    }
  }

  function Summary(participants: seq<Participant>, hands: seq<Hand>): seq<Party> {
    var ids := ActiveIds(participants);
    seq(|ids|, i requires 0 <= i < |ids| => Party(ids[i], NetOf(hands, ids[i])))
  }

  method GetSummary(participants: seq<Participant>, hands: seq<Hand>) returns (lines: seq<Party>)
    ensures lines == Summary(participants, hands)
  {
    var ids := ActiveIds(participants);
    var totals := new int[|ids|](_ => 0);
    var h := 0;
    while h < |hands|
      invariant 0 <= h <= |hands|
      invariant forall i :: 0 <= i < |ids| ==> totals[i] == NetOf(hands[..h], ids[i])
    {
      assert hands[..h + 1][..h] == hands[..h];
      if hands[h].status == Locked {
        var i := 0;
        while i < |ids|
          invariant 0 <= i <= |ids|
          invariant forall k :: 0 <= k < i ==> totals[k] == NetOf(hands[..h + 1], ids[k])
          invariant forall k :: i <= k < |ids| ==> totals[k] == NetOf(hands[..h], ids[k])
        {
          totals[i] := totals[i] + AmountOf(EntryOf(hands[h].entries, ids[i]));
          i := i + 1;
        }
      }
      h := h + 1;
    }
    assert hands[..h] == hands;
    lines := seq(|ids|, i requires 0 <= i < |ids| && i < totals.Length reads totals => Party(ids[i], totals[i]));
  }

  // ---------- generateSettlement ----------

  datatype Transfer = Transfer(payer: nat, payee: nat, amount: int)

  predicate LargerFirst(a: Party, b: Party) {
    a.amount >= b.amount
  }

  predicate SmallerFirst(a: Party, b: Party) {
    a.amount <= b.amount
  }

  function Above(lines: seq<Party>): seq<Party> {
    if lines == [] then []
    else
      var n := |lines| - 1;
      if lines[n].amount > 0 then Above(lines[..n]) + [lines[n]] else Above(lines[..n])
  }

  function Below(lines: seq<Party>): seq<Party> {
    if lines == [] then []
    else
      var n := |lines| - 1;
      if lines[n].amount < 0 then Below(lines[..n]) + [lines[n]] else Below(lines[..n])
  }

  lemma {:induction false} SideMembers(lines: seq<Party>, p: Party)
    ensures p in Above(lines) <==> p in lines && p.amount > 0
    ensures p in Below(lines) <==> p in lines && p.amount < 0
  {
    if lines != [] {
      var n := |lines| - 1;
      SideMembers(lines[..n], p);
      assert lines == lines[..n] + [lines[n]];
    }
  }

  function Creditors(lines: seq<Party>): seq<Party> {
    Sort(Above(lines), LargerFirst)
  }

  function Debtors(lines: seq<Party>): seq<Party> {
    Sort(Below(lines), SmallerFirst)
  }

  ghost predicate AllOwe(ds: seq<Party>) {
    forall i :: 0 <= i < |ds| ==> ds[i].amount < 0
  }

  ghost predicate AllDue(cs: seq<Party>) {
    forall i :: 0 <= i < |cs| ==> cs[i].amount > 0
  }

  /** What is left of a list whose first party has come down to `amount`. */
  function Reduced(ps: seq<Party>, amount: int): seq<Party>
    requires ps != []
  {
    if amount == 0 then ps[1..] else ps[0 := ps[0].(amount := amount)]
  }

  /** The transfers: the first debtor pays the first creditor as much as both allow, and whoever is done steps back. */
  function Match(ds: seq<Party>, cs: seq<Party>): seq<Transfer>
    decreases |ds| + |cs|
  {
    if ds == [] || cs == [] then []
    else
      var paid := Min(-ds[0].amount, cs[0].amount);
      [Transfer(ds[0].id, cs[0].id, paid)] + Match(Reduced(ds, ds[0].amount + paid), Reduced(cs, cs[0].amount - paid))
  }

  lemma SidesSigned(lines: seq<Party>)
    ensures AllOwe(Debtors(lines)) && AllDue(Creditors(lines))
  {
    var ds, cs := Debtors(lines), Creditors(lines);
    forall i | 0 <= i < |ds| ensures ds[i].amount < 0 {
      SortMembers(Below(lines), SmallerFirst, ds[i]);
      SideMembers(lines, ds[i]);
    }
    forall i | 0 <= i < |cs| ensures cs[i].amount > 0 {
      SortMembers(Above(lines), LargerFirst, cs[i]);
      SideMembers(lines, cs[i]);
    }
  }

  /** The pass of the two pointers: `done` is what has been paid, i and j stand on the parties still to settle. */
  function Walk(done: seq<Transfer>, ds: seq<Party>, i: nat, cs: seq<Party>, j: nat): seq<Transfer>
    requires i <= |ds| && j <= |cs|
    decreases |ds| - i + |cs| - j
  {
    if i == |ds| || j == |cs| then done
    else
      var paid := Min(-ds[i].amount, cs[j].amount);
      Walk(done + [Transfer(ds[i].id, cs[j].id, paid)],
        Adjusted(ds, i, ds[i].amount + paid), Passed(i, ds[i].amount + paid),
        Adjusted(cs, j, cs[j].amount - paid), Passed(j, cs[j].amount - paid))
  }

  function Adjusted(ps: seq<Party>, k: nat, amount: int): seq<Party>
    requires k < |ps|
  {
    ps[k := ps[k].(amount := amount)]
  }

  /** Where the pointer goes: on, once nothing is left. */
  function Passed(k: nat, amount: int): nat {
    if amount == 0 then k + 1 else k
  }

  lemma AdjustedTail(ps: seq<Party>, k: nat, amount: int)
    requires k < |ps|
    ensures Adjusted(ps, k, amount)[Passed(k, amount)..] == Reduced(ps[k..], amount)
  {
  }

  lemma AppendFirst(done: seq<Transfer>, first: Transfer, rest: seq<Transfer>)
    ensures (done + [first]) + rest == done + ([first] + rest)
  {
  }

  lemma WalkStep(done: seq<Transfer>, ds: seq<Party>, i: nat, cs: seq<Party>, j: nat,
      paid: Transfer, ds': seq<Party>, i': nat, cs': seq<Party>, j': nat)
    requires i < |ds| && j < |cs| && paid == Transfer(ds[i].id, cs[j].id, Min(-ds[i].amount, cs[j].amount))
    requires ds' == Adjusted(ds, i, ds[i].amount + paid.amount) && i' == Passed(i, ds[i].amount + paid.amount)
    requires cs' == Adjusted(cs, j, cs[j].amount - paid.amount) && j' == Passed(j, cs[j].amount - paid.amount)
    ensures i' <= |ds'| && j' <= |cs'| && |ds'| - i' + |cs'| - j' < |ds| - i + |cs| - j
    ensures Walk(done, ds, i, cs, j) == Walk(done + [paid], ds', i', cs', j')
  {
  }

  lemma MatchStep(owing: seq<Party>, due: seq<Party>, paid: Transfer, owing': seq<Party>, due': seq<Party>)
    requires owing != [] && due != []
    requires paid == Transfer(owing[0].id, due[0].id, Min(-owing[0].amount, due[0].amount))
    requires owing' == Reduced(owing, owing[0].amount + paid.amount)
    requires due' == Reduced(due, due[0].amount - paid.amount)
    ensures Match(owing, due) == [paid] + Match(owing', due')
  {
  }

  lemma AllWalked(done: seq<Transfer>, ds: seq<Party>, i: nat, cs: seq<Party>, j: nat)
    requires i <= |ds| && j <= |cs| && (i == |ds| || j == |cs|)
    ensures Walk(done, ds, i, cs, j) == done && Match(ds[i..], cs[j..]) == []
  {
  }

  /** The pass makes exactly the transfers of the matching. */
  lemma {:induction false} WalkIsMatch(done: seq<Transfer>, ds: seq<Party>, i: nat, cs: seq<Party>, j: nat)
    requires i <= |ds| && j <= |cs|
    ensures Walk(done, ds, i, cs, j) == done + Match(ds[i..], cs[j..])
    decreases |ds| - i + |cs| - j
  {
    if i < |ds| && j < |cs| {
      var paid := Transfer(ds[i].id, cs[j].id, Min(-ds[i].amount, cs[j].amount));
      var d, c := ds[i].amount + paid.amount, cs[j].amount - paid.amount;
      var ds', i', cs', j' := Adjusted(ds, i, d), Passed(i, d), Adjusted(cs, j, c), Passed(j, c);
      WalkStep(done, ds, i, cs, j, paid, ds', i', cs', j');
      AdjustedTail(ds, i, d);
      AdjustedTail(cs, j, c);
      MatchStep(ds[i..], cs[j..], paid, ds'[i'..], cs'[j'..]);
      WalkIsMatch(done + [paid], ds', i', cs', j');
      AppendFirst(done, paid, Match(ds'[i'..], cs'[j'..]));
    } else {
      AllWalked(done, ds, i, cs, j);
    }
  }

  method GenerateSettlement(lines: seq<Party>) returns (transfers: seq<Transfer>)
    ensures transfers == Match(Debtors(lines), Creditors(lines))
  {
    var debtors, creditors := Debtors(lines), Creditors(lines);
    transfers := MatchInPlace(debtors, creditors);
    WalkIsMatch([], debtors, 0, creditors, 0);
  }

  /** The loop over copies of both sides, whose amounts it brings down in place. */
  method MatchInPlace(debtors: seq<Party>, creditors: seq<Party>) returns (transfers: seq<Transfer>)
    ensures transfers == Walk([], debtors, 0, creditors, 0)
  {
    var ds := new Party[|debtors|](k requires 0 <= k < |debtors| => debtors[k]);
    var cs := new Party[|creditors|](k requires 0 <= k < |creditors| => creditors[k]);
    assert ds[..] == debtors && cs[..] == creditors;
    transfers := [];
    var i, j := 0, 0;
    while i < ds.Length && j < cs.Length
      invariant 0 <= i <= ds.Length && 0 <= j <= cs.Length
      invariant Walk(transfers, ds[..], i, cs[..], j) == Walk([], debtors, 0, creditors, 0)
      decreases ds.Length - i + cs.Length - j
    {
      ghost var owing, due, i0, j0, before := ds[..], cs[..], i, j, transfers;
      var amount := Min(-ds[i].amount, cs[j].amount);
      var paid := Transfer(ds[i].id, cs[j].id, amount);
      transfers := transfers + [paid];
      ds[i] := ds[i].(amount := ds[i].amount + amount);
      cs[j] := cs[j].(amount := cs[j].amount - amount);
      assert ds[..] == Adjusted(owing, i, ds[i].amount) && cs[..] == Adjusted(due, j, cs[j].amount);
      if ds[i].amount == 0 {
        i := i + 1;
      }
      if cs[j].amount == 0 {
        j := j + 1;
      }
      WalkStep(before, owing, i0, due, j0, paid, ds[..], i, cs[..], j);
    }
  }
}
