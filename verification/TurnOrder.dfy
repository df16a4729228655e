/** Whose turn comes next: firstActionableSeatAfter walks the table clockwise and
    stops at the nearest player who still has to act. */
module TurnOrder {
  import opened Sequences
  import opened Engine

  ghost predicate SeatsAscend(players: seq<Player>) {
    forall i, j :: 0 <= i < j < |players| ==> players[i].seatNo < players[j].seatNo
  }

  /** d places clockwise from position k. */
  function Clockwise(k: nat, d: nat, n: nat): nat
    requires k < n && d <= n
  {
    if k + d < n then k + d else k + d - n
  }

  /** How far clockwise x is from k: between 1 and n, a full turn back to k itself. */
  function Distance(k: nat, x: nat, n: nat): nat
    requires k < n && x < n
  {
    if x > k then x - k else x + n - k
  }

  lemma SortSeats(seats: seq<int>)
    requires StrictlyAscending(seats)
    ensures Sort(seats, IntLeq) == seats
  {
    SortIdentity(seats, IntLeq);
  }

  lemma IndexAt(seats: seq<int>, k: nat)
    requires StrictlyAscending(seats) && k < |seats|
    ensures IndexOf(seats, seats[k]) == k
  {
    var i := IndexOf(seats, seats[k]);
    assert i < |seats| && seats[i] == seats[k];
  }

  lemma PositionAt(players: seq<Player>, k: nat)
    requires SeatsAscend(players) && k < |players|
    ensures PositionOf(players, players[k].seatNo) == k
  {
    var i := PositionOf(players, players[k].seatNo);
    assert i < |players|;
  }

  /** The next seat is one place clockwise. */
  lemma NextSeatAt(seats: seq<int>, k: nat)
    requires StrictlyAscending(seats) && k < |seats|
    ensures NextSeat(seats, seats[k]) == seats[Clockwise(k, 1, |seats|)]
  {
    SortSeats(seats);
    IndexAt(seats, k);
  }

  lemma OneSeatOn(players: seq<Player>, bet: int, k: nat, steps: nat)
    requires SeatsAscend(players) && k < |players| && steps > 0
    ensures var next := Clockwise(k, 1, |players|);
      FirstActionableFrom(players, bet, players[k].seatNo, steps) ==
        if NeedsAction(players[next], bet) then Some(players[next].seatNo)
        else FirstActionableFrom(players, bet, players[next].seatNo, steps - 1)
  {
    NextSeatAt(SeatsOf(players), k);
    PositionAt(players, Clockwise(k, 1, |players|));
  }

  /** Nobody strictly between `from` and `to` places clockwise of k has to act. */
  ghost predicate Idle(players: seq<Player>, bet: int, k: nat, from: nat, to: nat)
    requires k < |players| && to <= |players| + 1
  {
    forall e :: from < e < to ==> !NeedsAction(players[Clockwise(k, e, |players|)], bet)
  }

  lemma IdleFrom(players: seq<Player>, bet: int, k: nat, start: nat, to: nat)
    requires k < |players| && start < |players| && to <= |players| + 1
    requires !NeedsAction(players[Clockwise(k, start + 1, |players|)], bet) && Idle(players, bet, k, start + 1, to)
    ensures Idle(players, bet, k, start, to)
  {
  }

  lemma {:induction false} FirstActionableSteps(players: seq<Player>, bet: int, k: nat, start: nat, steps: nat,
      r: Option<int>) returns (d: nat)
    requires SeatsAscend(players) && k < |players| && start + steps <= |players|
    requires r == FirstActionableFrom(players, bet, players[Clockwise(k, start, |players|)].seatNo, steps)
    ensures r == None ==> Idle(players, bet, k, start, start + steps + 1)
    ensures r.Some? ==> start < d <= start + steps && Idle(players, bet, k, start, d)
    ensures r.Some? ==> var t := players[Clockwise(k, d, |players|)]; r == Some(t.seatNo) && NeedsAction(t, bet)
    decreases steps
  {
    d := start;
    if steps > 0 {
      var n := |players|;
      var here, next := Clockwise(k, start, n), Clockwise(k, start + 1, n);
      assert next == Clockwise(here, 1, n);
      OneSeatOn(players, bet, here, steps);
      if NeedsAction(players[next], bet) {
        d := start + 1;
      } else {
        d := FirstActionableSteps(players, bet, k, start + 1, steps - 1, r);
        IdleFrom(players, bet, k, start, if r == None then start + steps + 1 else d);
      }
    }
  }

  /** Position t has to act and is the nearest one clockwise of k that does. */
  ghost predicate ActsNext(players: seq<Player>, bet: int, k: nat, t: nat)
    requires k < |players|
  {
    && t < |players|
    && NeedsAction(players[t], bet)
    && forall x :: 0 <= x < |players| && NeedsAction(players[x], bet) ==>
      Distance(k, t, |players|) <= Distance(k, x, |players|)
  }

  /** Starting behind position k, the turn goes to the nearest player clockwise who needs to act; it is nobody's only
      when nobody needs to. */
  lemma NearestActs(players: seq<Player>, bet: int, k: nat) returns (t: nat)
    requires SeatsAscend(players) && k < |players|
    ensures var r := FirstActionableSeatAfter(players, bet, players[k].seatNo);
      if r == None then forall x :: 0 <= x < |players| ==> !NeedsAction(players[x], bet)
      else ActsNext(players, bet, k, t) && r == Some(players[t].seatNo)
  {
    var n := |players|;
    var r := FirstActionableSeatAfter(players, bet, players[k].seatNo);
    var d := FirstActionableSteps(players, bet, k, 0, n, r);
    forall x | 0 <= x < n && NeedsAction(players[x], bet) ensures r != None && d <= Distance(k, x, n) {
      assert x == Clockwise(k, Distance(k, x, n), n);
    }
    t := if r == None then 0 else Clockwise(k, d, n);
    if r != None {
      assert Distance(k, t, n) == d;
    }
  }
}
