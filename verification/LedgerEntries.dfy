/** What a ledger hand holds, told from the requests it has served: every entry
    over any run, and which requests go through and where they lead. */
module LedgerEntries {
  import opened Sequences
  import opened Ledger
  import opened LedgerTheorems

  // ---------- entries over a run ----------

  /** Participant k's entry after these events: the amount last submitted for k; SUBMITTED until k confirms it, and
      reopened by anybody's dispute, as DISPUTED when it is k's own. */
  function EntryAfter(log: seq<LedgerEvent>, k: nat): Option<Entry> {
    if log == [] then None
    else
      var was := EntryAfter(log[..|log| - 1], k);
      match log[|log| - 1]
      case SubmittedFor(who, amount) => if who == k then Some(Entry(amount, Submitted)) else was
      case ConfirmedBy(who) => if who == k && was.Some? then Some(Entry(was.value.amount, Confirmed)) else was
      case DisputedBy(who) =>
        if was == None then None else Some(Entry(was.value.amount, if who == k then Disputed else Pending))
      case Other => was
  }

  lemma LogGrows(log: seq<LedgerEvent>, e: LedgerEvent)
    ensures (log + [e])[..|log|] == log && (log + [e])[|log|] == e
  {
  }

  lemma EntryStep(h: Hand, request: LedgerRequest, log: seq<LedgerEvent>, k: nat)
    requires HandOk(h) && EntryOf(h.entries, k) == EntryAfter(log, k)
    ensures EntryOf(After(h, request).entries, k) == EntryAfter(log + [EventOf(h, request)], k)
  {
    LogGrows(log, EventOf(h, request));
    if Serve(h, request).Ok? {
      match request
      case Submit(user, amount) => EntrySubmitted(h, UserAt(h.participants, user), amount, k);
      case SubmitForTemp(_, temp, amount) => EntrySubmitted(h, temp, amount, k);
      case _ =>
    }
  }

  lemma EntrySubmitted(h: Hand, who: nat, amount: int, k: nat)
    requires HandOk(h) && who < |h.participants|
    ensures EntryOf(Upsert(h.entries, who, amount), k) ==
      if who == k then Some(Entry(amount, Submitted)) else EntryOf(h.entries, k)
  {
  }

  /** Over any requests to a new hand every entry is what the accepted requests say: above all, its amount is the one
      last submitted for that participant. */
  lemma {:induction false} RunHolds(h: Hand, requests: seq<LedgerRequest>, k: nat)
    requires NewHand(h)
    ensures HandOk(LedgerRun(h, requests))
    ensures EntryOf(LedgerRun(h, requests).entries, k) == EntryAfter(Log(h, requests), k)
  {
    RunKeepsHand(h, requests);
    if requests != [] {
      var n := |requests| - 1;
      RunHolds(h, requests[..n], k);
      EntryStep(LedgerRun(h, requests[..n]), requests[n], Log(h, requests[..n]), k);
    }
  }

  // ---------- which requests go through, and where they lead ----------

  ghost predicate TakesPart(h: Hand, user: int) {
    exists k :: 0 <= k < |h.participants| && h.participants[k].userId == Some(user)
  }

  ghost predicate Everyone(h: Hand, status: EntryStatus) {
    forall k :: 0 <= k < |h.participants| ==>
      EntryOf(h.entries, k).Some? && EntryOf(h.entries, k).value.status == status
  }

  /** What a hand asks of each request. */
  ghost predicate Admits(h: Hand, request: LedgerRequest) {
    match request
    case Submit(user, _) => h.status != Locked && TakesPart(h, user)
    case SubmitForTemp(user, temp, _) =>
      user == h.owner && temp < |h.participants| && h.participants[temp].userId == None
    case AskToConfirm(user) => user == h.owner && AllSubmitted(h) && Net(h) == 0
    case ConfirmOwn(user) => h.status == Confirming && TakesPart(h, user)
    case DisputeOwn(user) => TakesPart(h, user)
    case AddTemp(user) => user == h.owner
  }

  /** The status an accepted request leaves. */
  ghost predicate Leads(h: Hand, request: LedgerRequest, r: Hand) {
    match request
    case Submit(_, _) =>
      if h.status == Confirming then r.status == Confirming
      else r.status == if AllSubmitted(r) && Net(r) == 0 then Confirming else Open
    case SubmitForTemp(_, _, _) => r.status == h.status
    case AskToConfirm(_) => r.status == Confirming
    case ConfirmOwn(_) => r.status == if Everyone(r, Confirmed) then Locked else Confirming
    case DisputeOwn(_) => r.status == UnderDispute
    case AddTemp(_) => r.status == h.status
  }

  /** Exactly the admitted requests go through, and they lead where the table says. */
  lemma ServedIff(h: Hand, request: LedgerRequest)
    requires HandOk(h)
    ensures Serve(h, request).Ok? <==> Admits(h, request)
    ensures Serve(h, request).Ok? ==> Leads(h, request, Serve(h, request).value)
  {
    match request
    case Submit(user, amount) =>
      if Serve(h, request).Ok? && h.status != Confirming {
        SubmissionPromotes(h, user, amount);
      }
    case AskToConfirm(user) => RequestAcceptedIff(h, user);
    case _ =>
  }

  /** LOCKED is not final: a dispute by any participant reopens the hand, and the owner's request takes it back to
      CONFIRMING when everything is submitted and adds up to 0. Nothing else moves it, and nothing else changes its
      entries of registered participants. */
  lemma UnlocksIff(h: Hand, request: LedgerRequest)
    requires HandOk(h) && h.status == Locked
    ensures After(h, request).status != Locked <==>
      (request.DisputeOwn? && TakesPart(h, request.user))
      || (request.AskToConfirm? && request.user == h.owner && AllSubmitted(h) && Net(h) == 0)
    ensures forall k :: 0 <= k < |h.participants| && h.participants[k].userId.Some? && !request.DisputeOwn? ==>
      EntryOf(After(h, request).entries, k) == EntryOf(h.entries, k)
  {
    ServedIff(h, request);
  }
}
