/**
  The operator console `RemoteAssistanceConsole` as one object: its fields are the component's
  state hooks (the camera selector aside) and each event handler is a method that updates them
  as one sequential step.
*/
module AssistConsole {
  import opened Wrappers
  import opened Tickets
  import opened Gate

  /** The four tickets the console starts with. */
  function SeedTickets(): (ts: seq<Ticket>)
    ensures |ts| == 4
    ensures ts[0].id == "AV-2847" && ts[0].assignedTo == Some(You) && ts[0].assignedOperator == Some(LocalOperator)
    ensures ts[1].id == "AV-2848" && ts[1].assignedTo == Some(Other) && ts[1].assignedOperator == Some("Mike T.")
    ensures ts[2].id == "AV-2849" && IsOpen(ts[2])
    ensures ts[3].id == "AV-2850" && IsOpen(ts[3])
  {
    [ Ticket("AV-2847", "RT-4521", "00:45", High, PaxWaiting, "Pickup Location Issue",
             Some(You), Some("Sarah K."), "pickup_mismatch", "Pax unable to locate vehicle",
             "Civic Center Plaza", "Pin shows north side, vehicle on south entrance"),
      Ticket("AV-2848", "RT-3309", "00:12", Medium, PaxWaiting, "Complex Navigation",
             Some(Other), Some("Mike T."), "construction", "Construction zone - needs routing",
             "5th St between Market & Mission", "Multiple lane closures, unclear detour signage"),
      Ticket("AV-2849", "ND-7856", "02:34", Low, Empty, "Route Blocked",
             None, None, "event_closure", "Street closed - marathon event",
             "Embarcadero & Bay St", "City marathon in progress, road closure until 2pm"),
      Ticket("AV-2850", "RT-2190", "00:08", High, PaxOnboard, "Traffic Merge",
             None, None, "traffic", "Unable to merge into traffic",
             "I-280 Onramp at King St", "Heavy traffic, waiting for safe merge opportunity") ]
  }

  /** The seed tickets have distinct ids. */
  lemma SeedIdsUnique()
    ensures UniqueIds(SeedTickets())
  {
    var ids := seq(4, i requires 0 <= i < 4 => SeedTickets()[i].id);
    assert ids == ["AV-2847", "AV-2848", "AV-2849", "AV-2850"];
    assert forall i :: 0 <= i < 4 ==> |ids[i]| == 7;
    assert ids[0][6] == '7' && ids[1][6] == '8' && ids[2][6] == '9' && ids[3][6] == '0';
  }

  /** Every seed ticket is either open or held by a named operator. */
  lemma SeedAssignmentsConsistent()
    ensures forall i :: 0 <= i < |SeedTickets()| ==> AssignmentConsistent(SeedTickets()[i])
  {
  }

  /** The seed data meets the ticket invariant. */
  lemma SeedTicketsValid()
    ensures TicketsValid(SeedTickets())
  {
    SeedIdsUnique();
    SeedAssignmentsConsistent();
  }

  class RemoteAssistanceConsole {
    var selectedTicket: string
    var interventionMode: Mode
    var selectedReason: string
    var pathPoints: seq<Waypoint>
    var selectedNudgeAction: Option<NudgeAction>
    var newPickupLocation: Option<LatLng>
    var isFleetMode: bool
    var selectedMapAction: Option<BlockerAction>
    var fleetBlockerLocation: Option<LatLng>
    var waitForInstructions: bool
    var hazardsOn: bool
    var showConfirmTakeModal: bool
    var tickets: seq<Ticket>

    /** The object invariant: the ticket list is consistent, only the current mode's buffer
        can hold input, a blocker pin exists only with a blocker action, a blocker action
        only in fleet scope. */
    ghost predicate Valid()
      reads this
    {
      TicketsValid(tickets) &&
      (interventionMode != Draw ==> pathPoints == []) &&
      (interventionMode != Nudge ==> selectedNudgeAction.None?) &&
      (interventionMode != Relocate ==> newPickupLocation.None?) &&
      (fleetBlockerLocation.Some? ==> selectedMapAction.Some?) &&
      (selectedMapAction.Some? ==> isFleetMode)
    }

    /** The inputs the send button and `handleSendCommand` read. */
    function Inputs(): Draft
      reads this`interventionMode, this`selectedReason, this`pathPoints, this`selectedNudgeAction
      reads this`newPickupLocation, this`isFleetMode, this`selectedMapAction, this`fleetBlockerLocation
    {
      Draft(interventionMode, selectedReason, pathPoints, selectedNudgeAction, newPickupLocation,
            isFleetMode, selectedMapAction, fleetBlockerLocation)
    }

    /** The status line under the send button as the console shows it: in vehicle scope it
        says "Ready to send" exactly when the button is not disabled; in fleet scope it
        announces the confirmation step once action and pin are set, reason or not. */
    function StatusLine(): (h: Hint)
      reads this`interventionMode, this`selectedReason, this`pathPoints, this`selectedNudgeAction
      reads this`newPickupLocation, this`isFleetMode, this`selectedMapAction, this`fleetBlockerLocation
      ensures !isFleetMode ==> (h == ReadyToSend <==> !SendDisabled(Inputs()))
      ensures isFleetMode ==> (h == RequiresConfirmation <==> selectedMapAction.Some? && fleetBlockerLocation.Some?)
      ensures isFleetMode ==> h != SelectReasonFirst
    {
      StatusHint(Inputs())
    }

    /** `currentTicket`: the ticket whose id is the selected one, if any. */
    function CurrentTicket(): Option<Ticket>
      reads this`tickets, this`selectedTicket
    {
      Find(tickets, selectedTicket)
    }

    constructor ()
      ensures Valid()
      ensures selectedTicket == "AV-2847" && interventionMode == Draw && selectedReason == ""
      ensures pathPoints == [] && selectedNudgeAction.None? && newPickupLocation.None?
      ensures !isFleetMode && selectedMapAction.None? && fleetBlockerLocation.None?
      ensures !waitForInstructions && !hazardsOn && !showConfirmTakeModal
      ensures tickets == SeedTickets()
    {
      selectedTicket := "AV-2847";
      interventionMode := Draw;
      selectedReason := "";
      pathPoints := [];
      selectedNudgeAction := None;
      newPickupLocation := None;
      isFleetMode := false;
      selectedMapAction := None;
      fleetBlockerLocation := None;
      waitForInstructions := false;
      hazardsOn := false;
      showConfirmTakeModal := false;
      tickets := SeedTickets();
      SeedTicketsValid();
    }

    /** A click on a ticket in the queue. */
    method SelectTicket(id: string)
      requires Valid()
      modifies this`selectedTicket
      ensures Valid() && selectedTicket == id
    {
      selectedTicket := id;
    }

    /** `updateTicketAssignment`: every ticket with that id gets the new pair. */
    method UpdateTicketAssignment(id: string, who: Option<Assignee>, op: Option<string>)
      requires Valid() && PairConsistent(who, op)
      modifies this`tickets
      ensures Valid()
      ensures tickets == UpdateAssignment(old(tickets), id, who, op)
    {
      UpdatePreservesValid(tickets, id, who, op);
      tickets := UpdateAssignment(tickets, id, who, op);
    }

    /** `handleTakeTask`: a ticket held by another operator only raises the confirmation
        dialog; any other current ticket is claimed at once; no current ticket, no change. */
    method TakeTask()
      requires Valid()
      modifies this`tickets, this`showConfirmTakeModal
      ensures Valid()
      ensures old(CurrentTicket()).None? ==>
                tickets == old(tickets) && showConfirmTakeModal == old(showConfirmTakeModal)
      ensures old(CurrentTicket()).Some? && old(CurrentTicket()).value.assignedTo == Some(Other) ==>
                showConfirmTakeModal && tickets == old(tickets)
      ensures old(CurrentTicket()).Some? && old(CurrentTicket()).value.assignedTo != Some(Other) ==>
                tickets == UpdateAssignment(old(tickets), selectedTicket, Some(You), Some(LocalOperator)) &&
                CurrentTicket() == Some(old(CurrentTicket()).value.(assignedTo := Some(You), assignedOperator := Some(LocalOperator))) &&
                showConfirmTakeModal == old(showConfirmTakeModal)
      ensures old(CurrentTicket()).Some? && IsOpen(old(CurrentTicket()).value) ==>
                OpenCount(tickets) == OpenCount(old(tickets)) - 1 && YoursCount(tickets) == YoursCount(old(tickets)) + 1
    {
      var current := CurrentTicket();
      if current.None? {
        return;
      }
      if current.value.assignedTo == Some(Other) {
        showConfirmTakeModal := true;
      } else {
        if IsOpen(current.value) {
          ClaimMovesCounters(tickets, selectedTicket);
        }
        FindAfterUpdate(tickets, selectedTicket, Some(You), Some(LocalOperator));
        UpdateTicketAssignment(current.value.id, Some(You), Some(LocalOperator));
      }
    }

    /** `handleConfirmTakeFromOther`: claims the current ticket and closes the dialog; it does
        not look at whether the dialog was open. No current ticket, no change. */
    method ConfirmTakeFromOther()
      requires Valid()
      modifies this`tickets, this`showConfirmTakeModal
      ensures Valid()
      ensures old(CurrentTicket()).None? ==>
                tickets == old(tickets) && showConfirmTakeModal == old(showConfirmTakeModal)
      ensures old(CurrentTicket()).Some? ==>
                tickets == UpdateAssignment(old(tickets), selectedTicket, Some(You), Some(LocalOperator)) &&
                CurrentTicket() == Some(old(CurrentTicket()).value.(assignedTo := Some(You), assignedOperator := Some(LocalOperator))) &&
                !showConfirmTakeModal
    {
      var current := CurrentTicket();
      if current.None? {
        return;
      }
      FindAfterUpdate(tickets, selectedTicket, Some(You), Some(LocalOperator));
      UpdateTicketAssignment(current.value.id, Some(You), Some(LocalOperator));
      showConfirmTakeModal := false;
    }

    /** The dialog's Cancel button: closes the dialog and touches no ticket. */
    method CancelTakeFromOther()
      requires Valid()
      modifies this`showConfirmTakeModal
      ensures Valid() && !showConfirmTakeModal
    {
      showConfirmTakeModal := false;
    }

    /** `handleReleaseTask`: the current ticket becomes open, whoever held it. */
    method ReleaseTask()
      requires Valid()
      modifies this`tickets
      ensures Valid()
      ensures old(CurrentTicket()).None? ==> tickets == old(tickets)
      ensures old(CurrentTicket()).Some? ==>
                tickets == UpdateAssignment(old(tickets), selectedTicket, None, None) &&
                CurrentTicket() == Some(old(CurrentTicket()).value.(assignedTo := None, assignedOperator := None))
      ensures old(CurrentTicket()).Some? && IsYours(old(CurrentTicket()).value) ==>
                OpenCount(tickets) == OpenCount(old(tickets)) + 1 && YoursCount(tickets) == YoursCount(old(tickets)) - 1
    {
      var current := CurrentTicket();
      if current.None? {
        return;
      }
      if IsYours(current.value) {
        ReleaseMovesCounters(tickets, selectedTicket);
      }
      FindAfterUpdate(tickets, selectedTicket, None, None);
      UpdateTicketAssignment(current.value.id, None, None);
    }

    /** The three mode buttons: the chosen mode's buffer is kept, the other two are emptied;
        quick-action toggles, the reason and the fleet fields are outside the frame. */
    method SelectMode(m: Mode)
      requires Valid()
      modifies this`interventionMode, this`pathPoints, this`selectedNudgeAction, this`newPickupLocation
      ensures Valid() && interventionMode == m
      ensures pathPoints == (if m == Draw then old(pathPoints) else [])
      ensures selectedNudgeAction == (if m == Nudge then old(selectedNudgeAction) else None)
      ensures newPickupLocation == (if m == Relocate then old(newPickupLocation) else None)
    {
      match m
      case Draw =>
        interventionMode := Draw;
        selectedNudgeAction := None;
        newPickupLocation := None;
      case Nudge =>
        interventionMode := Nudge;
        pathPoints := [];
        newPickupLocation := None;
      case Relocate =>
        interventionMode := Relocate;
        pathPoints := [];
        selectedNudgeAction := None;
    }

    /** A click on the video overlay, which exists only in draw mode. */
    method AddWaypoint(p: Waypoint)
      requires Valid() && interventionMode == Draw
      modifies this`pathPoints
      ensures Valid() && pathPoints == old(pathPoints) + [p]
    {
      pathPoints := pathPoints + [p];
    }

    /** The "clear path" button. */
    method ClearPath()
      requires Valid()
      modifies this`pathPoints
      ensures Valid() && pathPoints == []
    {
      pathPoints := [];
    }

    /** A nudge button, shown only in nudge mode: the pick replaces any earlier one. */
    method SelectNudgeAction(a: NudgeAction)
      requires Valid() && interventionMode == Nudge
      modifies this`selectedNudgeAction
      ensures Valid() && selectedNudgeAction == Some(a)
    {
      selectedNudgeAction := Some(a);
    }

    /** A click on the map, routed by `MapClickHandler`: relocate mode takes the click as the
        new pickup pin even in fleet scope; otherwise it places the blocker pin only in fleet
        scope with an action chosen; any other click changes nothing. */
    method MapClick(p: LatLng)
      requires Valid()
      modifies this`newPickupLocation, this`fleetBlockerLocation
      ensures Valid()
      ensures newPickupLocation == (if interventionMode == Relocate then Some(p) else old(newPickupLocation))
      ensures fleetBlockerLocation ==
                (if interventionMode != Relocate && isFleetMode && selectedMapAction.Some? then Some(p)
                 else old(fleetBlockerLocation))
    {
      if interventionMode == Relocate {
        newPickupLocation := Some(p);
      } else if isFleetMode && selectedMapAction.Some? {
        fleetBlockerLocation := Some(p);
      }
    }

    /** The "clear pin" button of relocate mode. */
    method ClearPickupLocation()
      requires Valid()
      modifies this`newPickupLocation
      ensures Valid() && newPickupLocation.None?
    {
      newPickupLocation := None;
    }

    /** The "clear pin" button of a placed blocker. */
    method ClearBlockerLocation()
      requires Valid()
      modifies this`fleetBlockerLocation
      ensures Valid() && fleetBlockerLocation.None?
    {
      fleetBlockerLocation := None;
    }

    /** The "Vehicle" scope button: leaves fleet scope and drops both fleet fields. */
    method SelectVehicleScope()
      requires Valid()
      modifies this`isFleetMode, this`selectedMapAction, this`fleetBlockerLocation
      ensures Valid() && !isFleetMode && selectedMapAction.None? && fleetBlockerLocation.None?
    {
      isFleetMode := false;
      selectedMapAction := None;
      fleetBlockerLocation := None;
    }

    /** The "Fleet" scope button: only sets the flag; vehicle buffers stay as they are. */
    method SelectFleetScope()
      requires Valid()
      modifies this`isFleetMode
      ensures Valid() && isFleetMode
    {
      isFleetMode := true;
    }

    /** A fleet action button, shown only in fleet scope; a placed blocker pin is kept. */
    method SelectMapAction(a: BlockerAction)
      requires Valid() && isFleetMode
      modifies this`selectedMapAction
      ensures Valid() && selectedMapAction == Some(a)
    {
      selectedMapAction := Some(a);
    }

    /** The reason selector: one of the listed reasons, or "" for its placeholder. */
    method SelectReason(r: string)
      requires Valid() && (r == "" || r in Reasons)
      modifies this`selectedReason
      ensures Valid() && selectedReason == r
    {
      selectedReason := r;
    }

    /** `handleQuickAction`: "wait" and "hazards" flip their own toggle; "honk",
        "flash_lights" and anything else change no state. */
    method QuickAction(action: string)
      requires Valid()
      modifies this`waitForInstructions, this`hazardsOn
      ensures Valid()
      ensures waitForInstructions == (if action == "wait" then !old(waitForInstructions) else old(waitForInstructions))
      ensures hazardsOn == (if action == "hazards" then !old(hazardsOn) else old(hazardsOn))
    {
      if action == "wait" {
        waitForInstructions := !waitForInstructions;
      } else if action == "honk" {
      } else if action == "hazards" {
        hazardsOn := !hazardsOn;
      } else if action == "flash_lights" {
      }
    }

    /** `handleSendCommand`, reachable only while the send button is enabled. `confirmed` is
        the operator's answer to the fleet-wide confirmation prompt; `cmd` is what went out. */
    method SendCommand(confirmed: bool) returns (cmd: Option<Command>)
      requires Valid() && SendEnabled(Inputs())
      modifies this`pathPoints, this`selectedNudgeAction, this`newPickupLocation
      modifies this`selectedMapAction, this`fleetBlockerLocation
      ensures Valid()
      ensures Inputs() == AfterSend(old(Inputs()), confirmed)
      ensures cmd == SentCommand(old(Inputs()), confirmed,
                                 if old(CurrentTicket()).Some? then Some(old(CurrentTicket()).value.vehicleId) else None)
    {
      var current := CurrentTicket();
      var vehicle := if current.Some? then Some(current.value.vehicleId) else None;
      cmd := None;
      if isFleetMode && selectedMapAction.Some? && fleetBlockerLocation.Some? {
        if confirmed {
          cmd := Some(FleetMapEdit(selectedMapAction.value, fleetBlockerLocation.value, selectedReason));
          selectedMapAction := None;
          fleetBlockerLocation := None;
        }
      } else if interventionMode == Draw && |pathPoints| > 0 {
        cmd := Some(PathCommand(vehicle, pathPoints));
        pathPoints := [];
      } else if interventionMode == Nudge && selectedNudgeAction.Some? {
        cmd := Some(NudgeCommand(vehicle, selectedNudgeAction.value));
        selectedNudgeAction := None;
      } else if interventionMode == Relocate && newPickupLocation.Some? {
        cmd := Some(PickupCommand(vehicle, newPickupLocation.value));
        newPickupLocation := None;
      }
    }
  }
}
