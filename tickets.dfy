/**
  The ticket store of the remote assistance console: the ticket record, the lookup of the
  current ticket by id, the reassignment that `updateTicketAssignment` performs on the whole
  list, and the "open" / "yours" counters shown above the queue.
*/
module Tickets {
  import opened Wrappers

  datatype Priority = High | Medium | Low
  datatype PassengerContext = PaxOnboard | PaxWaiting | Empty | Delivery

  /** The values `assignedTo` takes: `'You'` or `'other'`; `null` is `None`. */
  datatype Assignee = You | Other

  datatype Ticket = Ticket(
    id: string,
    vehicleId: string,
    timeStalled: string,
    priority: Priority,
    context: PassengerContext,
    status: string,
    assignedTo: Option<Assignee>,
    assignedOperator: Option<string>,
    scenario: string,
    issue: string,
    location: string,
    notes: string)

  /** The name the local operator writes when claiming a ticket. */
  const LocalOperator: string := "Sarah K."

  /** An (assignedTo, assignedOperator) pair as the console may store it: both set or both
      null, a non-empty name, and never the local operator's name on another operator's ticket. */
  predicate PairConsistent(who: Option<Assignee>, op: Option<string>)
  {
    (who.None? <==> op.None?) &&
    (op.Some? ==> op.value != "") &&
    (who == Some(Other) ==> op != Some(LocalOperator))
  }

  predicate AssignmentConsistent(t: Ticket)
  {
    PairConsistent(t.assignedTo, t.assignedOperator)
  }

  predicate UniqueIds(ts: seq<Ticket>)
  {
    forall i, j :: 0 <= i < j < |ts| ==> ts[i].id != ts[j].id
  }

  /** The invariant of the ticket list: ids are unique and every assignment is consistent. */
  predicate TicketsValid(ts: seq<Ticket>)
  {
    UniqueIds(ts) && forall i :: 0 <= i < |ts| ==> AssignmentConsistent(ts[i])
  }

  /** Index of the first ticket with the given id, as `Array.prototype.find` scans. */
  function FindIndex(ts: seq<Ticket>, id: string): (r: Option<nat>)
    ensures r.Some? ==> r.value < |ts| && ts[r.value].id == id
    ensures r.Some? ==> forall j :: 0 <= j < r.value ==> ts[j].id != id
    ensures r.None? ==> forall j :: 0 <= j < |ts| ==> ts[j].id != id
  {
    if ts == [] then None
    else if ts[0].id == id then Some(0)
    else match FindIndex(ts[1..], id)
      case None => None
      case Some(k) => Some(k + 1)
  }

  /** `tickets.find(t => t.id === id)`: the first ticket with that id, or nothing. */
  function Find(ts: seq<Ticket>, id: string): (r: Option<Ticket>)
    ensures r.Some? ==> r.value in ts && r.value.id == id
    ensures r.None? <==> forall t :: t in ts ==> t.id != id
  {
    match FindIndex(ts, id)
    case None => None
    case Some(k) => Some(ts[k])
  }

  /** `t` and `u` agree on every field except the two assignment fields. */
  predicate SameExceptAssignment(t: Ticket, u: Ticket)
  {
    t.(assignedTo := u.assignedTo, assignedOperator := u.assignedOperator) == u
  }

  /** The mapping `updateTicketAssignment` passes to `setTickets`: every ticket whose id
      matches gets the new pair, every other ticket is kept as it is. */
  function UpdateAssignment(ts: seq<Ticket>, id: string, who: Option<Assignee>, op: Option<string>): (r: seq<Ticket>)
    ensures |r| == |ts|
    ensures forall i :: 0 <= i < |ts| && ts[i].id != id ==> r[i] == ts[i]
    ensures forall i :: 0 <= i < |ts| && ts[i].id == id ==>
              r[i].assignedTo == who && r[i].assignedOperator == op && SameExceptAssignment(r[i], ts[i])
  {
    if ts == [] then []
    else
      var head := if ts[0].id == id then ts[0].(assignedTo := who, assignedOperator := op) else ts[0];
      [head] + UpdateAssignment(ts[1..], id, who, op)
  }

  /** With unique ids the reassignment rewrites exactly the ticket the lookup finds. */
  lemma UpdateAtFoundIndex(ts: seq<Ticket>, id: string, who: Option<Assignee>, op: Option<string>, k: nat)
    requires UniqueIds(ts)
    requires FindIndex(ts, id) == Some(k)
    ensures k < |ts|
    ensures UpdateAssignment(ts, id, who, op) == ts[k := ts[k].(assignedTo := who, assignedOperator := op)]
  {
    var r := UpdateAssignment(ts, id, who, op);
    var s := ts[k := ts[k].(assignedTo := who, assignedOperator := op)];
    forall i | 0 <= i < |ts| ensures r[i] == s[i] {
      if i != k {
        assert ts[i].id != ts[k].id;
      }
    }
  }

  /** Reassignment keeps the ticket invariant as long as the written pair is consistent. */
  lemma UpdatePreservesValid(ts: seq<Ticket>, id: string, who: Option<Assignee>, op: Option<string>)
    requires TicketsValid(ts)
    requires PairConsistent(who, op)
    ensures TicketsValid(UpdateAssignment(ts, id, who, op))
  {
    var r := UpdateAssignment(ts, id, who, op);
    forall i | 0 <= i < |r| ensures AssignmentConsistent(r[i]) {
      assert ts[i].id == id ==> r[i].assignedTo == who && r[i].assignedOperator == op;
    }
    forall i, j | 0 <= i < j < |r| ensures r[i].id != r[j].id {
      assert SameExceptAssignment(r[i], ts[i]) && SameExceptAssignment(r[j], ts[j]);
    }
  }

  /** After reassignment the lookup of the same id yields the reassigned ticket. */
  lemma FindAfterUpdate(ts: seq<Ticket>, id: string, who: Option<Assignee>, op: Option<string>)
    requires Find(ts, id).Some?
    ensures Find(UpdateAssignment(ts, id, who, op), id) == Some(Find(ts, id).value.(assignedTo := who, assignedOperator := op))
  {
    var r := UpdateAssignment(ts, id, who, op);
    var k := FindIndex(ts, id).value;
    var k' := FindIndex(r, id);
    assert r[k].id == id;
    assert k'.Some?;
    assert k'.value == k;
  }

  /** Number of tickets satisfying `p`, as `tickets.filter(p).length`. */
  function Count(ts: seq<Ticket>, p: Ticket -> bool): (n: nat)
    ensures n <= |ts|
    ensures n == 0 <==> forall i :: 0 <= i < |ts| ==> !p(ts[i])
  {
    if ts == [] then 0 else (if p(ts[0]) then 1 else 0) + Count(ts[1..], p)
  }

  predicate IsOpen(t: Ticket) { t.assignedTo.None? }
  predicate IsYours(t: Ticket) { t.assignedTo == Some(You) }

  /** The "open" counter: tickets with no assignee. */
  function OpenCount(ts: seq<Ticket>): nat { Count(ts, IsOpen) }

  /** The "yours" counter: tickets assigned to `'You'`. */
  function YoursCount(ts: seq<Ticket>): nat { Count(ts, IsYours) }

  /** Replacing one ticket changes a count by what the old and new ticket contribute. */
  lemma {:induction false} CountReplace(ts: seq<Ticket>, p: Ticket -> bool, k: nat, t: Ticket)
    requires k < |ts|
    ensures Count(ts[k := t], p) + (if p(ts[k]) then 1 else 0) == Count(ts, p) + (if p(t) then 1 else 0)
  {
    if k == 0 {
      assert ts[k := t][1..] == ts[1..];
    } else {
      assert ts[k := t][1..] == ts[1..][k - 1 := t];
      CountReplace(ts[1..], p, k - 1, t);
    }
  }

  /** The open and yours counters never overlap: together they are at most the queue length. */
  lemma {:induction false} OpenAndYoursDisjoint(ts: seq<Ticket>)
    ensures OpenCount(ts) + YoursCount(ts) <= |ts|
  {
    if ts != [] {
      OpenAndYoursDisjoint(ts[1..]);
    }
  }

  /** Claiming an open ticket moves it from the open counter to the yours counter. */
  lemma ClaimMovesCounters(ts: seq<Ticket>, id: string)
    requires UniqueIds(ts)
    requires Find(ts, id).Some? && IsOpen(Find(ts, id).value)
    ensures var r := UpdateAssignment(ts, id, Some(You), Some(LocalOperator));
            OpenCount(r) == OpenCount(ts) - 1 && YoursCount(r) == YoursCount(ts) + 1
  {
    var k := FindIndex(ts, id).value;
    var t := ts[k].(assignedTo := Some(You), assignedOperator := Some(LocalOperator));
    UpdateAtFoundIndex(ts, id, Some(You), Some(LocalOperator), k);
    CountReplace(ts, IsOpen, k, t);
    CountReplace(ts, IsYours, k, t);
  }

  /** Releasing a ticket of yours moves it from the yours counter to the open counter. */
  lemma ReleaseMovesCounters(ts: seq<Ticket>, id: string)
    requires UniqueIds(ts)
    requires Find(ts, id).Some? && IsYours(Find(ts, id).value)
    ensures var r := UpdateAssignment(ts, id, None, None);
            OpenCount(r) == OpenCount(ts) + 1 && YoursCount(r) == YoursCount(ts) - 1
  {
    var k := FindIndex(ts, id).value;
    var t := ts[k].(assignedTo := None, assignedOperator := None);
    UpdateAtFoundIndex(ts, id, None, None, k);
    CountReplace(ts, IsOpen, k, t);
    CountReplace(ts, IsYours, k, t);
  }
}
