/** The submit, confirm and dispute protocol of a ledger hand over any sequence
    of requests. */
module LedgerTheorems {
  import opened Sequences
  import opened Ledger

  // ---------- the invariant ----------

  /** Nobody has left (no request of the service writes LEFT or REMOVED), every user takes part once, and past the
      submissions every registered participant's entry counts. */
  ghost predicate HandOk(h: Hand) {
    && |h.entries| <= |h.participants|
    && (forall k :: 0 <= k < |h.participants| ==> h.participants[k].status == Active)
    && UsersDiffer(h.participants)
    && (h.status == Confirming || h.status == Locked ==> RegisteredCount(h))
  }

  ghost predicate UsersDiffer(participants: seq<Participant>) {
    forall i, j :: 0 <= i < j < |participants| && participants[i].userId.Some? ==>
      participants[i].userId != participants[j].userId
  }

  ghost predicate RegisteredCount(h: Hand) {
    forall k :: 0 <= k < |h.participants| && h.participants[k].userId.Some? ==> Counts(EntryOf(h.entries, k))
  }

  lemma UserFound(participants: seq<Participant>, k: nat)
    requires UsersDiffer(participants) && k < |participants| && participants[k].userId.Some?
    ensures UserAt(participants, participants[k].userId.value) == k
  {
    var i := UserAt(participants, participants[k].userId.value);
    assert i < |participants| && participants[i].userId == participants[k].userId;
  }

  lemma ServeKeepsHand(h: Hand, request: LedgerRequest)
    requires HandOk(h) && Serve(h, request).Ok?
    ensures HandOk(Serve(h, request).value)
  {
    var after := Serve(h, request).value;
    match request
    case Submit(user, amount) => SubmitKeepsCounts(h, UserAt(h.participants, user), amount);
    case SubmitForTemp(_, k, amount) => SubmitKeepsCounts(h, k, amount);
    case AskToConfirm(_) =>
    case ConfirmOwn(user) =>
      assert RegisteredCount(h.(entries := Confirmation(h.entries, UserAt(h.participants, user))));
    case DisputeOwn(_) =>
    case AddTemp(_) =>
      assert RegisteredCount(h) ==> RegisteredCount(after);
  }

  lemma SubmitKeepsCounts(h: Hand, k: nat, amount: int)
    requires k < |h.participants| && |h.entries| <= |h.participants|
    ensures |Upsert(h.entries, k, amount)| <= |h.participants|
    ensures RegisteredCount(h) ==> RegisteredCount(h.(entries := Upsert(h.entries, k, amount)))
    ensures forall i :: 0 <= i < |h.participants| ==>
      EntryOf(Upsert(h.entries, k, amount), i) == if i == k then Some(Entry(amount, Submitted))
        else EntryOf(h.entries, i)
  {
  }

  // ---------- the balance ----------

  function Amounts(entries: seq<Option<Entry>>): seq<int> {
    seq(|entries|, k requires 0 <= k < |entries| => AmountOf(entries[k]))
  }

  /** Everything entered for the hand, whatever the state of the entries. */
  function Net(h: Hand): int {
    Sum(Amounts(h.entries))
  }

  /** Once everybody's entry counts, both of the service's sums are the sum of all amounts. */
  lemma SumsAgree(h: Hand)
    requires HandOk(h) && AllSubmitted(h)
    ensures Sum(Counted(h.entries)) == Net(h) && Sum(CountedActive(h.participants, h.entries)) == Net(h)
  {
    forall k | 0 <= k < |h.entries| ensures Counts(h.entries[k]) {
      assert Counts(EntryOf(h.entries, k));
    }
    assert Counted(h.entries) == Amounts(h.entries);
    assert CountedActive(h.participants, h.entries) == Amounts(h.entries);
  }

  /** While amounts are being collected, a submission moves the hand to CONFIRMING exactly when it leaves every
      participant's entry submitted and the amounts adding up to 0. */
  lemma SubmissionPromotes(h: Hand, user: int, amount: int)
    requires HandOk(h) && (h.status == Open || h.status == UnderDispute) && SubmitEntry(h, user, amount).Ok?
    ensures var after := SubmitEntry(h, user, amount).value;
      && (after.status == Confirming <==> AllSubmitted(after) && Net(after) == 0)
      && (after.status != Confirming ==> after.status == Open)
  {
    SubmitKeepsCounts(h, UserAt(h.participants, user), amount);
    var collected := h.(entries := Upsert(h.entries, UserAt(h.participants, user), amount), status := Open);
    if AllSubmitted(collected) {
      SumsAgree(collected);
    }
  }

  /** The owner's request is accepted exactly when every participant's entry is submitted and the amounts sum to 0. */
  lemma RequestAcceptedIff(h: Hand, user: int)
    requires HandOk(h)
    ensures RequestConfirm(h, user).Ok? <==> user == h.owner && AllSubmitted(h) && Net(h) == 0
  {
    if AllSubmitted(h) {
      SumsAgree(h);
    }
  }

  ghost predicate Enters(h: Hand, request: LedgerRequest) {
    && Serve(h, request).Ok? && Serve(h, request).value.status == Confirming
    && (h.status != Confirming || request.AskToConfirm?)
  }

  /** No other step enters CONFIRMING: whichever does, everybody has submitted and the amounts add up to 0. */
  lemma EntersBalanced(h: Hand, request: LedgerRequest)
    requires HandOk(h) && Enters(h, request)
    ensures request.Submit? || request.AskToConfirm?
    ensures AllSubmitted(Serve(h, request).value) && Net(Serve(h, request).value) == 0
  {
    match request
    case Submit(user, amount) => SubmissionPromotes(h, user, amount);
    case AskToConfirm(user) => RequestAcceptedIff(h, user);
    case _ =>
  }

  // ---------- runs ----------

  function After(h: Hand, request: LedgerRequest): Hand {
    var r := Serve(h, request);
    if r.Ok? then r.value else h
  }

  function LedgerRun(h: Hand, requests: seq<LedgerRequest>): Hand {
    if requests == [] then h else After(LedgerRun(h, requests[..|requests| - 1]), requests[|requests| - 1])
  }

  lemma {:induction false} RunKeepsHand(h: Hand, requests: seq<LedgerRequest>)
    requires HandOk(h)
    ensures HandOk(LedgerRun(h, requests))
  {
    if requests != [] {
      var n := |requests| - 1;
      RunKeepsHand(h, requests[..n]);
      AfterKeepsHand(LedgerRun(h, requests[..n]), requests[n]);
    }
  }

  lemma AfterKeepsHand(h: Hand, request: LedgerRequest)
    requires HandOk(h)
    ensures HandOk(After(h, request))
  {
    if Serve(h, request).Ok? {
      ServeKeepsHand(h, request);
    }
  }

  // ---------- how the balance can break ----------

  /** By how much a request changes what is entered. */
  function Change(h: Hand, request: LedgerRequest): int {
    if Serve(h, request).Err? then 0
    else match request
      case Submit(user, amount) => amount - AmountOf(EntryOf(h.entries, UserAt(h.participants, user)))
      case SubmitForTemp(_, k, amount) => amount - AmountOf(EntryOf(h.entries, k))
      case _ => 0
  }

  lemma UpsertSum(entries: seq<Option<Entry>>, k: nat, amount: int)
    ensures Sum(Amounts(Upsert(entries, k, amount))) == Sum(Amounts(entries)) + amount - AmountOf(EntryOf(entries, k))
  {
    var after := Upsert(entries, k, amount);
    if k < |entries| {
      assert Amounts(after) == Amounts(entries)[k := amount];
      SumUpdate(Amounts(entries), k, amount);
    } else {
      var gap := seq(k - |entries|, _ => 0);
      assert Amounts(after) == Amounts(entries) + (gap + [amount]);
      SumConcat(Amounts(entries), gap + [amount]);
      SumZero(gap);
      assert (gap + [amount])[..|gap|] == gap;
    }
  }

  /** Confirming and reopening leave the amounts. */
  lemma AmountsStay(entries: seq<Option<Entry>>, k: nat)
    ensures Amounts(Confirmation(entries, k)) == Amounts(entries) == Amounts(Reopened(entries, k))
  {
  }

  /** One request changes the sum of the hand by what it submits anew, and by nothing else. */
  lemma StepDrift(h: Hand, request: LedgerRequest)
    ensures Net(After(h, request)) == Net(h) + Change(h, request)
  {
    if Serve(h, request).Ok? {
      match request
      case Submit(user, amount) => UpsertSum(h.entries, UserAt(h.participants, user), amount);
      case SubmitForTemp(_, k, amount) => UpsertSum(h.entries, k, amount);
      case AskToConfirm(_) =>
      case ConfirmOwn(user) => AmountsStay(h.entries, UserAt(h.participants, user));
      case DisputeOwn(user) => AmountsStay(h.entries, UserAt(h.participants, user));
      case AddTemp(_) =>
    }
  }

  /** Which request throws a balanced hand off balance, whatever its status: exactly an accepted submission of an amount
      other than the participant's present one. */
  lemma BalanceBreaksIff(h: Hand, request: LedgerRequest)
    requires HandOk(h) && Net(h) == 0
    ensures Net(After(h, request)) != 0 <==> match request
      case Submit(user, amount) =>
        h.status != Locked && UserAt(h.participants, user) < |h.participants|
        && amount != AmountOf(EntryOf(h.entries, UserAt(h.participants, user)))
      case SubmitForTemp(user, k, amount) =>
        user == h.owner && k < |h.participants| && h.participants[k].userId == None
        && amount != AmountOf(EntryOf(h.entries, k))
      case _ => false
  {
    StepDrift(h, request);
  }

  function Drift(h: Hand, requests: seq<LedgerRequest>): int {
    if requests == [] then 0
    else
      var n := |requests| - 1;
      Drift(h, requests[..n]) + Change(LedgerRun(h, requests[..n]), requests[n])
  }

  /** A balanced hand is balanced again after any run exactly when its submissions cancel out; a run without submissions
      leaves the balance alone. In particular a hand that gets from CONFIRMING to LOCKED by confirmations only is locked
      with amounts that add up to 0. */
  lemma {:induction false} BalanceDrifts(h: Hand, requests: seq<LedgerRequest>)
    ensures Net(LedgerRun(h, requests)) == Net(h) + Drift(h, requests)
    ensures (forall i :: 0 <= i < |requests| ==> !requests[i].Submit? && !requests[i].SubmitForTemp?) ==>
      Drift(h, requests) == 0
  {
    if requests != [] {
      var n := |requests| - 1;
      BalanceDrifts(h, requests[..n]);
      StepDrift(LedgerRun(h, requests[..n]), requests[n]);
    }
  }

  lemma ConfirmationsLockBalanced(h: Hand, request: LedgerRequest, requests: seq<LedgerRequest>)
    requires HandOk(h) && Enters(h, request)
    requires forall i :: 0 <= i < |requests| ==> requests[i].ConfirmOwn?
    ensures Net(LedgerRun(After(h, request), requests)) == 0
  {
    EntersBalanced(h, request);
    BalanceDrifts(After(h, request), requests);
  }

  ghost predicate Collected(h: Hand) {
    h.status == Confirming || h.status == Locked
  }

  /** A hand that is CONFIRMING or LOCKED has entered CONFIRMING at some request. */
  lemma {:induction false} EnteredBefore(h: Hand, requests: seq<LedgerRequest>) returns (i: nat)
    requires HandOk(h) && !Collected(h) && Collected(LedgerRun(h, requests))
    ensures i < |requests| && Enters(LedgerRun(h, requests[..i]), requests[i])
  {
    var n := |requests| - 1;
    var before := LedgerRun(h, requests[..n]);
    if Collected(before) {
      i := EnteredBefore(h, requests[..n]);
      assert requests[..n][..i] == requests[..i];
    } else {
      i := n;
    }
  }

  /** A locked hand is balanced exactly when the amounts submitted since it entered CONFIRMING cancel out. */
  lemma LockedBalancedIff(h: Hand, requests: seq<LedgerRequest>) returns (i: nat)
    requires HandOk(h) && !Collected(h) && LedgerRun(h, requests).status == Locked
    ensures i < |requests| && Enters(LedgerRun(h, requests[..i]), requests[i])
    ensures Net(LedgerRun(h, requests)) == 0 <==> Drift(LedgerRun(h, requests[..i + 1]), requests[i + 1..]) == 0
  {
    i := EnteredBefore(h, requests);
    var first, later := requests[..i + 1], requests[i + 1..];
    RunKeepsHand(h, requests[..i]);
    EntersBalanced(LedgerRun(h, requests[..i]), requests[i]);
    assert first[..i] == requests[..i] && requests == first + later;
    BalanceDrifts(LedgerRun(h, first), later);
    RunSplits(h, first, later);
  }

  /** Two participants' hand with these entries. */
  function TwoHand(status: HandStatus, a: Entry, b: Entry): Hand {
    Hand(1, [Participant(Some(1), Active), Participant(Some(2), Active)], status, [Some(a), Some(b)])
  }

  lemma TwoUsers()
    ensures UserAt([Participant(Some(1), Active), Participant(Some(2), Active)], 1) == 0
    ensures UserAt([Participant(Some(1), Active), Participant(Some(2), Active)], 2) == 1
  {
  }

  lemma ResubmitWhileConfirming(amount: int, b: Entry)
    ensures After(TwoHand(Confirming, Entry(100, Submitted), b), Submit(1, amount)) ==
      TwoHand(Confirming, Entry(amount, Submitted), b)
  {
    TwoUsers();
  }

  lemma FirstConfirms(a: int, b: int)
    ensures After(TwoHand(Confirming, Entry(a, Submitted), Entry(b, Submitted)), ConfirmOwn(1)) ==
      TwoHand(Confirming, Entry(a, Confirmed), Entry(b, Submitted))
  {
    TwoUsers();
    var h := TwoHand(Confirming, Entry(a, Confirmed), Entry(b, Submitted));
    assert h.participants[1].status == Active && EntryOf(h.entries, 1).value.status != Confirmed;
  }

  lemma SecondConfirms(a: int, b: int)
    ensures After(TwoHand(Confirming, Entry(a, Confirmed), Entry(b, Submitted)), ConfirmOwn(2)) ==
      TwoHand(Locked, Entry(a, Confirmed), Entry(b, Confirmed))
  {
    TwoUsers();
    assert AllConfirmed(TwoHand(Confirming, Entry(a, Confirmed), Entry(b, Confirmed)));
  }

  lemma TwoNet(status: HandStatus, a: Entry, b: Entry)
    ensures Net(TwoHand(status, a, b)) == a.amount + b.amount
  {
    assert Amounts(TwoHand(status, a, b).entries) == [a.amount] + [b.amount];
    SumConcat([a.amount], [b.amount]);
    assert [a.amount][..0] == [] && [b.amount][..0] == [];
  }

  lemma RunOneMore(h: Hand, requests: seq<LedgerRequest>, last: LedgerRequest)
    ensures LedgerRun(h, requests + [last]) == After(LedgerRun(h, requests), last)
  {
    assert (requests + [last])[..|requests|] == requests;
  }

  lemma RunOfThree(h: Hand, r: LedgerRequest, s: LedgerRequest, t: LedgerRequest)
    ensures LedgerRun(h, [r, s, t]) == After(After(After(h, r), s), t)
  {
    RunOneMore(h, [], r);
    RunOneMore(h, [r], s);
    RunOneMore(h, [r, s], t);
    assert [] + [r] == [r] && [r] + [s] == [r, s] && [r, s] + [t] == [r, s, t];
  }

  // ---------- a dispute opens a new round ----------

  /** What an accepted request did, and in whose row. */
  datatype LedgerEvent =
    | SubmittedFor(participant: nat, amount: int)
    | ConfirmedBy(participant: nat)
    | DisputedBy(participant: nat)
    | Other

  function EventOf(h: Hand, request: LedgerRequest): LedgerEvent {
    if Serve(h, request).Err? then Other
    else match request
      case Submit(user, amount) => SubmittedFor(UserAt(h.participants, user), amount)
      case SubmitForTemp(_, k, amount) => SubmittedFor(k, amount)
      case ConfirmOwn(user) => ConfirmedBy(UserAt(h.participants, user))
      case DisputeOwn(user) => DisputedBy(UserAt(h.participants, user))
      case _ => Other
  }

  function Log(h: Hand, requests: seq<LedgerRequest>): seq<LedgerEvent> {
    if requests == [] then []
    else
      var n := |requests| - 1;
      Log(h, requests[..n]) + [EventOf(LedgerRun(h, requests[..n]), requests[n])]
  }

  predicate Submits(e: LedgerEvent, k: nat) {
    e.SubmittedFor? && e.participant == k
  }

  ghost predicate SubmittedAfter(log: seq<LedgerEvent>, k: nat, d: nat) {
    exists s :: d < s < |log| && Submits(log[s], k)
  }

  /** Every entry that counts was submitted after every dispute. */
  ghost predicate RoundFits(log: seq<LedgerEvent>, h: Hand) {
    forall d, k: nat :: 0 <= d < |log| && log[d].DisputedBy? && k < |h.entries| && Counts(h.entries[k]) ==>
      SubmittedAfter(log, k, d)
  }

  lemma RoundKept(log: seq<LedgerEvent>, h: Hand, request: LedgerRequest)
    requires HandOk(h) && RoundFits(log, h)
    ensures RoundFits(log + [EventOf(h, request)], After(h, request))
  {
    var e := EventOf(h, request);
    var longer, after := log + [e], After(h, request);
    forall d, k: nat | 0 <= d < |longer| && longer[d].DisputedBy? && k < |after.entries| && Counts(after.entries[k])
      ensures SubmittedAfter(longer, k, d)
    {
      if Submits(e, k) {
        assert longer[|log|] == e;
      } else {
        CountedBefore(h, request, k);
        assert d < |log| && log[d].DisputedBy?;
        var s :| d < s < |log| && Submits(log[s], k);
        assert longer[s] == log[s];
      }
    }
  }

  /** An entry only begins to count by being submitted, and no entry counts right after a dispute. */
  lemma CountedBefore(h: Hand, request: LedgerRequest, k: nat)
    requires HandOk(h) && k < |After(h, request).entries| && Counts(After(h, request).entries[k])
    requires !Submits(EventOf(h, request), k)
    ensures k < |h.entries| && Counts(h.entries[k]) && !EventOf(h, request).DisputedBy?
  {
    match request
    case ConfirmOwn(user) =>
      if Serve(h, request).Ok? && k == UserAt(h.participants, user) {
        assert Counts(EntryOf(h.entries, k));
      }
    case _ =>
  }

  lemma {:induction false} RunFitsRounds(h: Hand, requests: seq<LedgerRequest>)
    requires HandOk(h)
    ensures HandOk(LedgerRun(h, requests)) && RoundFits(Log(h, requests), LedgerRun(h, requests))
  {
    if requests != [] {
      var n := |requests| - 1;
      RunFitsRounds(h, requests[..n]);
      RoundKept(Log(h, requests[..n]), LedgerRun(h, requests[..n]), requests[n]);
      AfterKeepsHand(LedgerRun(h, requests[..n]), requests[n]);
    }
  }

  /** After a dispute at event d, the hand enters CONFIRMING again only when every participant has submitted anew. */
  lemma DisputeNeedsNewRound(h: Hand, requests: seq<LedgerRequest>, last: LedgerRequest, d: nat, k: nat)
    requires HandOk(h) && Enters(LedgerRun(h, requests), last)
    requires d < |Log(h, requests)| && Log(h, requests)[d].DisputedBy?
    requires k < |LedgerRun(h, requests + [last]).participants|
    ensures SubmittedAfter(Log(h, requests + [last]), k, d)
  {
    var all := requests + [last];
    assert all[..|requests|] == requests;
    RunFitsRounds(h, requests);
    RunFitsRounds(h, all);
    EntersBalanced(LedgerRun(h, requests), last);
    var after := LedgerRun(h, all);
    assert after.participants[k].status == Active && Counts(EntryOf(after.entries, k));
    assert Log(h, all)[d] == Log(h, requests)[d];
  }

  // ---------- locking ----------

  /** A confirmation locks the hand exactly when everybody else had confirmed before. */
  lemma LocksIff(h: Hand, user: int)
    requires HandOk(h) && ConfirmEntry(h, user).Ok?
    ensures ConfirmEntry(h, user).value.status == Locked <==>
      forall k :: 0 <= k < |h.participants| && k != UserAt(h.participants, user) ==>
        EntryOf(h.entries, k).Some? && EntryOf(h.entries, k).value.status == Confirmed
  {
    var mine := UserAt(h.participants, user);
    assert Counts(EntryOf(h.entries, mine));
    var confirmed := h.(entries := Confirmation(h.entries, mine));
    forall k | 0 <= k < |h.participants|
      ensures EntryOf(confirmed.entries, k) ==
        if k == mine then Some(EntryOf(h.entries, k).value.(status := Confirmed)) else EntryOf(h.entries, k)
    {
    }
  }

  /** Participant t is temporary and has no confirmed entry. */
  ghost predicate TempUnconfirmed(h: Hand, t: nat) {
    && t < |h.participants| && h.participants[t].userId == None
    && !(EntryOf(h.entries, t).Some? && EntryOf(h.entries, t).value.status == Confirmed)
  }

  lemma TempEntryStays(h: Hand, request: LedgerRequest, t: nat)
    requires HandOk(h) && TempUnconfirmed(h, t)
    ensures TempUnconfirmed(After(h, request), t)
  {
    var after := After(h, request);
    if Serve(h, request).Ok? {
      assert EntryOf(after.entries, t) == EntryOf(h.entries, t) || EntryOf(after.entries, t).value.status != Confirmed;
    }
  }

  lemma TempStays(h: Hand, request: LedgerRequest, t: nat)
    requires HandOk(h) && TempUnconfirmed(h, t) && h.status != Locked
    ensures TempUnconfirmed(After(h, request), t) && After(h, request).status != Locked
  {
    TempEntryStays(h, request, t);
    if Serve(h, request).Ok? {
      ServeKeepsHand(h, request);
      assert After(h, request).participants[t].status == Active;
    }
  }

  /** A temporary participant has no user to confirm with: a hand that has one before it is locked stays unlocked. */
  lemma {:induction false} TempNeverLocks(h: Hand, requests: seq<LedgerRequest>, t: nat)
    requires HandOk(h) && TempUnconfirmed(h, t) && h.status != Locked
    ensures LedgerRun(h, requests).status != Locked && TempUnconfirmed(LedgerRun(h, requests), t)
  {
    if requests != [] {
      var n := |requests| - 1;
      TempNeverLocks(h, requests[..n], t);
      RunKeepsHand(h, requests[..n]);
      TempStays(LedgerRun(h, requests[..n]), requests[n], t);
    }
  }

  /** The service does not look at the status when a temporary participant is added: one who comes after the lock leaves
      the hand locked. */
  lemma LateTempStaysLocked(h: Hand)
    requires HandOk(h) && h.status == Locked
    ensures After(h, AddTemp(h.owner)).status == Locked && TempUnconfirmed(After(h, AddTemp(h.owner)), |h.participants|)
  {
  }

  // ---------- a round that goes well ----------

  /** A new hand; somebody, at least the owner, takes part. */
  ghost predicate NewHand(h: Hand) {
    HandOk(h) && h.status == Open && h.entries == [] && h.participants != []
  }

  /** Nobody is temporary. */
  ghost predicate AllRegistered(h: Hand) {
    forall k :: 0 <= k < |h.participants| ==> h.participants[k].userId.Some?
  }

  /** A new hand among registered participants. */
  ghost predicate FreshHand(h: Hand) {
    NewHand(h) && AllRegistered(h)
  }

  function UserOf(h: Hand, k: nat): int
    requires k < |h.participants|
  {
    h.participants[k].userId.GetOr(0)
  }

  /** The first j participants hand in their amounts. */
  function Submissions(h: Hand, amounts: seq<int>, j: nat): seq<LedgerRequest>
    requires |amounts| == |h.participants| && j <= |amounts|
  {
    if j == 0 then [] else Submissions(h, amounts, j - 1) + [Submit(UserOf(h, j - 1), amounts[j - 1])]
  }

  function Confirmations(h: Hand, j: nat): seq<LedgerRequest>
    requires j <= |h.participants|
  {
    if j == 0 then [] else Confirmations(h, j - 1) + [ConfirmOwn(UserOf(h, j - 1))]
  }

  function Rows(amounts: seq<int>, confirmed: nat): seq<Option<Entry>> {
    seq(|amounts|, i requires 0 <= i < |amounts| =>
      Some(Entry(amounts[i], if i < confirmed then Confirmed else Submitted)))
  }

  lemma {:induction false} SubmissionsRun(h: Hand, amounts: seq<int>, j: nat)
    requires FreshHand(h) && |amounts| == |h.participants| && j <= |amounts| && Sum(amounts) == 0
    ensures LedgerRun(h, Submissions(h, amounts, j)) ==
      h.(entries := Rows(amounts[..j], 0), status := if j == |amounts| then Confirming else Open)
  {
    if j > 0 {
      SubmissionsRun(h, amounts, j - 1);
      var all, rest := Submissions(h, amounts, j), Submissions(h, amounts, j - 1);
      assert all[..|all| - 1] == rest;
      SubmissionAdds(h, amounts, j - 1);
    } else {
      assert Rows(amounts[..0], 0) == [];
    }
  }

  lemma RowsGrow(amounts: seq<int>, j: nat)
    requires j < |amounts|
    ensures Upsert(Rows(amounts[..j], 0), j, amounts[j]) == Rows(amounts[..j + 1], 0)
  {
  }

  lemma SubmissionAdds(h: Hand, amounts: seq<int>, j: nat)
    requires FreshHand(h) && |amounts| == |h.participants| && j < |amounts| && Sum(amounts) == 0
    ensures After(h.(entries := Rows(amounts[..j], 0)), Submit(UserOf(h, j), amounts[j])) ==
      h.(entries := Rows(amounts[..j + 1], 0), status := if j + 1 == |amounts| then Confirming else Open)
  {
    UserFound(h.participants, j);
    RowsGrow(amounts, j);
    if j + 1 == |amounts| {
      assert amounts[..j + 1] == amounts;
      LastRowPromotes(h, amounts);
    } else {
      RowsMissing(h, amounts, j + 1);
    }
  }

  lemma RowsMissing(h: Hand, amounts: seq<int>, j: nat)
    requires FreshHand(h) && j < |amounts| == |h.participants|
    ensures !AllSubmitted(h.(entries := Rows(amounts[..j], 0)))
  {
    assert !Counts(EntryOf(Rows(amounts[..j], 0), j));
    assert h.participants[j].status == Active;
  }

  lemma LastRowPromotes(h: Hand, amounts: seq<int>)
    requires FreshHand(h) && |amounts| == |h.participants| && Sum(amounts) == 0
    ensures AutoPromote(h.(entries := Rows(amounts, 0))).status == Confirming
  {
    var full := h.(entries := Rows(amounts, 0));
    assert AllSubmitted(full);
    assert Amounts(full.entries) == amounts;
    SumsAgree(full);
  }

  lemma ConfirmationAdds(h: Hand, c: Hand, amounts: seq<int>, j: nat)
    requires FreshHand(h) && j < |amounts| == |h.participants|
    requires c == h.(entries := Rows(amounts, j), status := Confirming)
    ensures After(c, ConfirmOwn(UserOf(h, j))) ==
      c.(entries := Rows(amounts, j + 1), status := if j + 1 == |amounts| then Locked else Confirming)
  {
    UserFound(h.participants, j);
    var after := c.(entries := Rows(amounts, j + 1));
    assert Confirmation(c.entries, j) == after.entries;
    if j + 1 < |amounts| {
      assert h.participants[j + 1].status == Active && EntryOf(after.entries, j + 1).value.status == Submitted;
    } else {
      assert AllConfirmed(after);
    }
  }

  lemma {:induction false} ConfirmationsRun(h: Hand, c: Hand, amounts: seq<int>, j: nat)
    requires FreshHand(h) && |amounts| == |h.participants| && j <= |amounts|
    requires c == h.(entries := Rows(amounts, 0), status := Confirming)
    ensures LedgerRun(c, Confirmations(h, j)) ==
      c.(entries := Rows(amounts, j), status := if j == |amounts| then Locked else Confirming)
  {
    if j > 0 {
      ConfirmationsRun(h, c, amounts, j - 1);
      OneConfirmationMore(h, c, j);
      ConfirmationAdds(h, c.(entries := Rows(amounts, j - 1)), amounts, j - 1);
    }
  }

  lemma OneConfirmationMore(h: Hand, c: Hand, j: nat)
    requires 0 < j <= |h.participants|
    ensures LedgerRun(c, Confirmations(h, j)) ==
      After(LedgerRun(c, Confirmations(h, j - 1)), ConfirmOwn(UserOf(h, j - 1)))
  {
    var all := Confirmations(h, j);
    assert all[..|all| - 1] == Confirmations(h, j - 1);
  }

  lemma {:induction false} RunSplits(h: Hand, a: seq<LedgerRequest>, b: seq<LedgerRequest>)
    ensures LedgerRun(h, a + b) == LedgerRun(LedgerRun(h, a), b)
  {
    if b == [] {
      assert a + b == a;
    } else {
      var n := |b| - 1;
      RunSplits(h, a, b[..n]);
      assert (a + b)[..|a + b| - 1] == a + b[..n];
    }
  }

  /** Registered participants who submit amounts that add up to 0 and then all confirm do lock the hand, with exactly
      those amounts. */
  lemma RoundLocks(h: Hand, amounts: seq<int>)
    requires FreshHand(h) && |amounts| == |h.participants| && Sum(amounts) == 0
    ensures var end := LedgerRun(h, Submissions(h, amounts, |amounts|) + Confirmations(h, |amounts|));
      end.status == Locked && Amounts(end.entries) == amounts
  {
    var c := h.(entries := Rows(amounts, 0), status := Confirming);
    SubmissionsRun(h, amounts, |amounts|);
    assert amounts[..|amounts|] == amounts;
    ConfirmationsRun(h, c, amounts, |amounts|);
    RunSplits(h, Submissions(h, amounts, |amounts|), Confirmations(h, |amounts|));
    assert Amounts(Rows(amounts, |amounts|)) == amounts;
  }

  // ---------- which hands can still be locked ----------

  ghost predicate CanLock(h: Hand) {
    exists requests :: LedgerRun(h, requests).status == Locked
  }

  /** No temporary participant's entry is confirmed. */
  ghost predicate TempsUnconfirmed(h: Hand) {
    forall t: nat :: t < |h.participants| && h.participants[t].userId == None ==> TempUnconfirmed(h, t)
  }

  lemma TempsStayUnconfirmed(h: Hand, request: LedgerRequest)
    requires HandOk(h) && TempsUnconfirmed(h)
    ensures TempsUnconfirmed(After(h, request)) && |After(h, request).participants| >= |h.participants|
  {
    var after := After(h, request);
    forall t: nat | t < |after.participants| && after.participants[t].userId == None ensures TempUnconfirmed(after, t) {
      if t < |h.participants| {
        TempEntryStays(h, request, t);
      }
    }
  }

  lemma {:induction false} RunKeepsTemps(h: Hand, requests: seq<LedgerRequest>)
    requires NewHand(h)
    ensures HandOk(LedgerRun(h, requests)) && TempsUnconfirmed(LedgerRun(h, requests))
    ensures LedgerRun(h, requests).participants != []
  {
    if requests != [] {
      var n := |requests| - 1;
      RunKeepsTemps(h, requests[..n]);
      AfterKeepsHand(LedgerRun(h, requests[..n]), requests[n]);
      TempsStayUnconfirmed(LedgerRun(h, requests[..n]), requests[n]);
    }
  }

  function Zeros(n: nat): seq<int> {
    seq(n, _ => 0)
  }

  /** The first j entries are submitted with amount 0. */
  ghost predicate ZerosIn(g: Hand, j: nat) {
    j <= |g.entries| && forall i :: 0 <= i < j ==> g.entries[i] == Some(Entry(0, Submitted))
  }

  /** From h the first j participants have handed in 0. */
  ghost predicate ZerosHandedIn(h: Hand, g: Hand, j: nat) {
    && HandOk(g) && g.owner == h.owner && g.participants == h.participants && g.status != Locked && ZerosIn(g, j)
    && (j == |h.participants| && j > 0 ==> g.status == Confirming)
  }

  lemma AllZeros(g: Hand)
    requires |g.entries| <= |g.participants| && ZerosIn(g, |g.participants|)
    ensures AllSubmitted(g) && Sum(Counted(g.entries)) == 0 && g.entries == Rows(Zeros(|g.participants|), 0)
  {
    SumZero(Counted(g.entries));
  }

  lemma HandInZero(h: Hand, g: Hand, j: nat)
    requires AllRegistered(h) && j < |h.participants| && ZerosHandedIn(h, g, j)
    ensures ZerosHandedIn(h, After(g, Submit(UserOf(h, j), 0)), j + 1)
  {
    var request := Submit(UserOf(h, j), 0);
    UserFound(g.participants, j);
    ServeKeepsHand(g, request);
    var given := g.(entries := Upsert(g.entries, j, 0), status := if g.status == UnderDispute then Open else g.status);
    if j + 1 == |h.participants| {
      AllZeros(given);
    }
  }

  lemma {:induction false} HandInZeros(h: Hand, j: nat)
    requires HandOk(h) && AllRegistered(h) && h.status != Locked && j <= |h.participants|
    ensures ZerosHandedIn(h, LedgerRun(h, Submissions(h, Zeros(|h.participants|), j)), j)
  {
    if j > 0 {
      var zeros := Zeros(|h.participants|);
      HandInZeros(h, j - 1);
      var all := Submissions(h, zeros, j);
      assert all[..|all| - 1] == Submissions(h, zeros, j - 1);
      HandInZero(h, LedgerRun(h, Submissions(h, zeros, j - 1)), j - 1);
    }
  }

  /** Registered participants can always lock their hand: everybody hands in 0 and confirms. */
  lemma ZerosLock(h: Hand)
    requires HandOk(h) && AllRegistered(h) && h.status != Locked && h.participants != []
    ensures CanLock(h)
  {
    var n := |h.participants|;
    var blank, submissions := Hand(h.owner, h.participants, Open, []), Submissions(h, Zeros(n), n);
    HandInZeros(h, n);
    var g := LedgerRun(h, submissions);
    AllZeros(g);
    assert FreshHand(blank);
    ConfirmationsRun(blank, g, Zeros(n), n);
    RunSplits(h, submissions, Confirmations(blank, n));
    assert LedgerRun(h, submissions + Confirmations(blank, n)).status == Locked;
  }

  /** A hand that is not locked can be locked exactly when nobody in it is temporary. */
  lemma LockableIff(h: Hand)
    requires HandOk(h) && TempsUnconfirmed(h) && h.status != Locked && h.participants != []
    ensures CanLock(h) <==> AllRegistered(h)
  {
    if AllRegistered(h) {
      ZerosLock(h);
    } else {
      var t: nat :| t < |h.participants| && h.participants[t].userId == None;
      forall requests ensures LedgerRun(h, requests).status != Locked {
        TempNeverLocks(h, requests, t);
      }
    }
  }

  /** Whatever has been requested for a hand, if it is not locked then some further requests lock it exactly when every
      participant has a user. */
  lemma ReachableLockableIff(h: Hand, requests: seq<LedgerRequest>)
    requires NewHand(h) && LedgerRun(h, requests).status != Locked
    ensures CanLock(LedgerRun(h, requests)) <==> AllRegistered(LedgerRun(h, requests))
  {
    RunKeepsTemps(h, requests);
    LockableIff(LedgerRun(h, requests));
  }

  // ---------- a round that goes wrong ----------

  /** LOCKED does not mean balanced: a participant may submit another amount while the others are confirming. */
  lemma LockedUnbalanced() returns (h: Hand)
    ensures FreshHand(h)
    ensures var end := LedgerRun(h, [Submit(1, 100), Submit(2, -100), Submit(1, 200), ConfirmOwn(1), ConfirmOwn(2)]);
      end.status == Locked && Net(end) == 100
  {
    h := Hand(1, [Participant(Some(1), Active), Participant(Some(2), Active)], Open, []);
    var round := [Submit(1, 100), Submit(2, -100)];
    var later := [Submit(1, 200), ConfirmOwn(1), ConfirmOwn(2)];
    RoundOfTwo(h);
    LaterLocks(LedgerRun(h, round));
    RunSplits(h, round, later);
    assert round + later == [Submit(1, 100), Submit(2, -100), Submit(1, 200), ConfirmOwn(1), ConfirmOwn(2)];
    TwoNet(Locked, Entry(200, Confirmed), Entry(-100, Confirmed));
  }

  lemma LaterLocks(h: Hand)
    requires h == TwoHand(Confirming, Entry(100, Submitted), Entry(-100, Submitted))
    ensures LedgerRun(h, [Submit(1, 200), ConfirmOwn(1), ConfirmOwn(2)]) ==
      TwoHand(Locked, Entry(200, Confirmed), Entry(-100, Confirmed))
  {
    ResubmitWhileConfirming(200, Entry(-100, Submitted));
    FirstConfirms(200, -100);
    SecondConfirms(200, -100);
    RunOfThree(h, Submit(1, 200), ConfirmOwn(1), ConfirmOwn(2));
  }

  lemma RoundOfTwo(h: Hand)
    requires h == Hand(1, [Participant(Some(1), Active), Participant(Some(2), Active)], Open, [])
    ensures FreshHand(h)
    ensures LedgerRun(h, [Submit(1, 100), Submit(2, -100)]) ==
      TwoHand(Confirming, Entry(100, Submitted), Entry(-100, Submitted))
  {
    var amounts := [100, -100];
    SumConcat([100], [-100]);
    assert amounts == [100] + [-100] && [100][..0] == [] && [-100][..0] == [];
    SubmissionsRun(h, amounts, 2);
    assert Submissions(h, amounts, 0) == [];
    assert Submissions(h, amounts, 1) == [Submit(1, 100)];
    assert Submissions(h, amounts, 2) == [Submit(1, 100), Submit(2, -100)];
    assert Rows(amounts[..2], 0) == [Some(Entry(100, Submitted)), Some(Entry(-100, Submitted))];
  }
}
