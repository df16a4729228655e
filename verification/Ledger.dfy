/** apps/api/src/team-ledger/team-ledger.service.ts: one ledger hand from the
    first submitted amount to the lock. Amounts are integer cents. */
module Ledger {
  import opened Sequences

  datatype ParticipantStatus = Active | Left | Removed

  /** A registered participant has a user; a temporary one, whom the owner fills in for, has none. */
  datatype Participant = Participant(userId: Option<int>, status: ParticipantStatus)

  datatype EntryStatus = Pending | Submitted | Confirmed | Disputed

  datatype Entry = Entry(amount: int, status: EntryStatus)

  datatype HandStatus = Open | Confirming | Locked | UnderDispute

  /** Participants are numbered in the order they came; entries[k] is participant k's row in this hand, if any. */
  datatype Hand = Hand(owner: int, participants: seq<Participant>, status: HandStatus, entries: seq<Option<Entry>>)

  datatype LedgerError =
    | HandLocked | NotAParticipant | NotTheOwner | NoSuchParticipant
    | RegisteredUser | NotBalanced | NotAllSubmitted | NotConfirming

  // ---------- looking things up ----------

  /** The first participant with the user, or the number of participants. */
  function UserAt(participants: seq<Participant>, user: int): (k: nat)
    ensures k <= |participants|
    ensures k < |participants| ==> participants[k].userId == Some(user)
    ensures k == |participants| ==> forall j :: 0 <= j < |participants| ==> participants[j].userId != Some(user)
  {
    if participants == [] then 0
    else if participants[0].userId == Some(user) then 0
    else 1 + UserAt(participants[1..], user)
  }

  /** An entry that takes part in the balance. */
  predicate Counts(e: Option<Entry>) {
    e.Some? && (e.value.status == Submitted || e.value.status == Confirmed)
  }

  function EntryOf(entries: seq<Option<Entry>>, k: nat): Option<Entry> {
    if k < |entries| then entries[k] else None
  }

  function AmountOf(e: Option<Entry>): int {
    if e.Some? then e.value.amount else 0
  }

  function Counted(entries: seq<Option<Entry>>): seq<int> {
    seq(|entries|, k requires 0 <= k < |entries| => if Counts(entries[k]) then AmountOf(entries[k]) else 0)
  }

  function CountedActive(participants: seq<Participant>, entries: seq<Option<Entry>>): seq<int> {
    seq(|entries|, k requires 0 <= k < |entries| =>
      if k < |participants| && participants[k].status == Active && Counts(entries[k]) then AmountOf(entries[k]) else 0)
  }

  predicate AllSubmitted(h: Hand) {
    forall k :: 0 <= k < |h.participants| && h.participants[k].status == Active ==> Counts(EntryOf(h.entries, k))
  }

  predicate AllConfirmed(h: Hand) {
    forall k :: 0 <= k < |h.participants| && h.participants[k].status == Active ==>
      EntryOf(h.entries, k).Some? && EntryOf(h.entries, k).value.status == Confirmed
  }

  // ---------- the steps ----------

  /** The participant's row, created if there is none yet. */
  function Upsert(entries: seq<Option<Entry>>, k: nat, amount: int): seq<Option<Entry>> {
    var row := Some(Entry(amount, Submitted));
    if k < |entries| then entries[k := row] else entries + seq(k - |entries|, _ => None) + [row]
  }

  /** The automatic promotion sums every submitted entry of the hand. */
  function AutoPromote(h: Hand): Hand {
    if h.status == Open && AllSubmitted(h) && Sum(Counted(h.entries)) == 0 then h.(status := Confirming) else h
  }

  function PromoteLocked(h: Hand): Hand {
    if AllConfirmed(h) then h.(status := Locked) else h
  }

  function SubmitEntry(h: Hand, user: int, amount: int): Result<Hand, LedgerError> {
    var k := UserAt(h.participants, user);
    if h.status == Locked then Err(HandLocked)
    else if k == |h.participants| then Err(NotAParticipant)
    else Ok(AutoPromote(h.(
      entries := Upsert(h.entries, k, amount),
      status := if h.status == UnderDispute then Open else h.status)))
  }

  /** The owner fills in for a temporary participant. Neither the hand's status nor its balance is looked at. */
  function SubmitEntryForTemp(h: Hand, user: int, k: nat, amount: int): Result<Hand, LedgerError> {
    if h.owner != user then Err(NotTheOwner)
    else if k >= |h.participants| then Err(NoSuchParticipant)
    else if h.participants[k].userId.Some? then Err(RegisteredUser)
    else Ok(h.(entries := Upsert(h.entries, k, amount)))
  }

  /** The owner's request sums the entries of ACTIVE participants, whatever the hand's status. */
  function RequestConfirm(h: Hand, user: int): Result<Hand, LedgerError> {
    if h.owner != user then Err(NotTheOwner)
    else if Sum(CountedActive(h.participants, h.entries)) != 0 then Err(NotBalanced)
    else if !AllSubmitted(h) then Err(NotAllSubmitted)
    else Ok(h.(status := Confirming))
  }

  function Confirmation(entries: seq<Option<Entry>>, k: nat): seq<Option<Entry>> {
    if k < |entries| && entries[k].Some? then entries[k := Some(entries[k].value.(status := Confirmed))] else entries
  }

  function ConfirmEntry(h: Hand, user: int): Result<Hand, LedgerError> {
    var k := UserAt(h.participants, user);
    if h.status != Confirming then Err(NotConfirming)
    else if k == |h.participants| then Err(NotAParticipant)
    else Ok(PromoteLocked(h.(entries := Confirmation(h.entries, k))))
  }

  /** Every entry goes back to PENDING, the disputing participant's own to DISPUTED. */
  function Reopened(entries: seq<Option<Entry>>, k: nat): seq<Option<Entry>> {
    seq(|entries|, i requires 0 <= i < |entries| =>
      if entries[i] == None then None else Some(entries[i].value.(status := if i == k then Disputed else Pending)))
  }

  function DisputeEntry(h: Hand, user: int): Result<Hand, LedgerError> {
    var k := UserAt(h.participants, user);
    if k == |h.participants| then Err(NotAParticipant)
    else Ok(h.(entries := Reopened(h.entries, k), status := UnderDispute))
  }

  function AddTempParticipant(h: Hand, user: int): Result<Hand, LedgerError> {
    if h.owner != user then Err(NotTheOwner)
    else Ok(h.(participants := h.participants + [Participant(None, Active)]))
  }

  datatype LedgerRequest =
    | Submit(user: int, amount: int)
    | SubmitForTemp(user: int, temp: nat, amount: int)
    | AskToConfirm(user: int)
    | ConfirmOwn(user: int)
    | DisputeOwn(user: int)
    | AddTemp(user: int)

  function Serve(h: Hand, request: LedgerRequest): Result<Hand, LedgerError> {
    match request
    case Submit(user, amount) => SubmitEntry(h, user, amount)
    case SubmitForTemp(user, temp, amount) => SubmitEntryForTemp(h, user, temp, amount)
    case AskToConfirm(user) => RequestConfirm(h, user)
    case ConfirmOwn(user) => ConfirmEntry(h, user)
    case DisputeOwn(user) => DisputeEntry(h, user)
    case AddTemp(user) => AddTempParticipant(h, user)
  }

  // ---------- the stored hand ----------

  /** The participant, hand and entry rows every request reads and rewrites. */
  class StoredHand {
    const owner: int
    var participants: seq<Participant>
    var status: HandStatus
    var entries: seq<Option<Entry>>

    constructor (h: Hand)
      ensures View() == h
    {
      owner, participants, status, entries := h.owner, h.participants, h.status, h.entries;
    }

    function View(): Hand
      reads this
    {
      Hand(owner, participants, status, entries)
    }

    method Promote()
      modifies this`status
      ensures View() == AutoPromote(old(View()))
    {
      if status != Open {
        return;
      }
      if AllSubmitted(View()) && Sum(Counted(entries)) == 0 {
        status := Confirming;
      }
    }

    method SubmitOwn(user: int, amount: int) returns (error: Option<LedgerError>)
      modifies this
      ensures if error == None then SubmitEntry(old(View()), user, amount) == Ok(View())
        else SubmitEntry(old(View()), user, amount) == Err(error.value)
      ensures error.Some? ==> View() == old(View())
    {
      if status == Locked {
        return Some(HandLocked);
      }
      var k := UserAt(participants, user);
      if k == |participants| {
        return Some(NotAParticipant);
      }
      entries := Upsert(entries, k, amount);
      if status == UnderDispute {
        status := Open;
      }
      Promote();
      error := None;
    }

    method SubmitForTemporary(user: int, k: nat, amount: int) returns (error: Option<LedgerError>)
      modifies this`entries
      ensures if error == None then SubmitEntryForTemp(old(View()), user, k, amount) == Ok(View())
        else SubmitEntryForTemp(old(View()), user, k, amount) == Err(error.value)
      ensures error.Some? ==> View() == old(View())
    {
      if owner != user {
        return Some(NotTheOwner);
      }
      if k >= |participants| {
        return Some(NoSuchParticipant);
      }
      if participants[k].userId.Some? {
        return Some(RegisteredUser);
      }
      entries := Upsert(entries, k, amount);
      error := None;
    }

    method AskForConfirmation(user: int) returns (error: Option<LedgerError>)
      modifies this`status
      ensures if error == None then RequestConfirm(old(View()), user) == Ok(View())
        else RequestConfirm(old(View()), user) == Err(error.value)
      ensures error.Some? ==> View() == old(View())
    {
      if owner != user {
        return Some(NotTheOwner);
      }
      if Sum(CountedActive(participants, entries)) != 0 {
        return Some(NotBalanced);
      }
      if !AllSubmitted(View()) {
        return Some(NotAllSubmitted);
      }
      status := Confirming;
      error := None;
    }

    method Confirm(user: int) returns (error: Option<LedgerError>)
      modifies this`status, this`entries
      ensures if error == None then ConfirmEntry(old(View()), user) == Ok(View())
        else ConfirmEntry(old(View()), user) == Err(error.value)
      ensures error.Some? ==> View() == old(View())
    {
      if status != Confirming {
        return Some(NotConfirming);
      }
      var k := UserAt(participants, user);
      if k == |participants| {
        return Some(NotAParticipant);
      }
      entries := Confirmation(entries, k);
      if AllConfirmed(View()) {
        status := Locked;
      }
      error := None;
    }

    method Dispute(user: int) returns (error: Option<LedgerError>)
      modifies this`status, this`entries
      ensures if error == None then DisputeEntry(old(View()), user) == Ok(View())
        else DisputeEntry(old(View()), user) == Err(error.value)
      ensures error.Some? ==> View() == old(View())
    {
      var k := UserAt(participants, user);
      if k == |participants| {
        return Some(NotAParticipant);
      }
      for i := 0 to |entries|
        invariant |entries| == |old(entries)|
        invariant forall j :: 0 <= j < |entries| ==>
          entries[j] == if j < i && old(entries)[j].Some? then Some(old(entries)[j].value.(status := Pending))
            else old(entries)[j]
      {
        if entries[i].Some? {
          entries := entries[i := Some(entries[i].value.(status := Pending))];
        }
      }
      if k < |entries| && entries[k].Some? {
        entries := entries[k := Some(entries[k].value.(status := Disputed))];
      }
      assert entries == Reopened(old(entries), k);
      status := UnderDispute;
      error := None;
    }

    method AddTemporary(user: int) returns (error: Option<LedgerError>)
      modifies this`participants
      ensures if error == None then AddTempParticipant(old(View()), user) == Ok(View())
        else AddTempParticipant(old(View()), user) == Err(error.value)
      ensures error.Some? ==> View() == old(View())
    {
      if owner != user {
        return Some(NotTheOwner);
      }
      participants := participants + [Participant(None, Active)];
      error := None;
    }
  }
}
