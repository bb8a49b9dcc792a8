/**
  Operator sessions proved from the console's method contracts alone.
*/
module Scenarios {
  import opened Wrappers
  import opened Tickets
  import opened Gate
  import opened AssistConsole

  /** Taking a ticket held by another operator: the dialog opens with the ticket list
      untouched, and confirming hands the ticket to the local operator. */
  method TakeoverFromOther(c: RemoteAssistanceConsole)
    requires c.Valid() && c.CurrentTicket().Some? && c.CurrentTicket().value.assignedTo == Some(Other)
    modifies c
  {
    ghost var before := c.tickets;
    c.TakeTask();
    assert c.showConfirmTakeModal && c.tickets == before;
    c.ConfirmTakeFromOther();
    assert !c.showConfirmTakeModal;
    assert c.CurrentTicket().value.assignedTo == Some(You);
    assert c.CurrentTicket().value.assignedOperator == Some("Sarah K.");
  }

  /** Cancelling the dialog leaves every ticket as it was. */
  method TakeoverCancelled(c: RemoteAssistanceConsole)
    requires c.Valid() && c.CurrentTicket().Some? && c.CurrentTicket().value.assignedTo == Some(Other)
    modifies c
  {
    ghost var before := c.tickets;
    c.TakeTask();
    c.CancelTakeFromOther();
    assert !c.showConfirmTakeModal && c.tickets == before;
  }

  /** Claiming an open ticket and releasing it again restores both counters. */
  method ClaimThenRelease(c: RemoteAssistanceConsole)
    requires c.Valid() && c.CurrentTicket().Some? && IsOpen(c.CurrentTicket().value)
    modifies c
  {
    ghost var open, yours := OpenCount(c.tickets), YoursCount(c.tickets);
    c.TakeTask();
    assert IsYours(c.CurrentTicket().value);
    assert OpenCount(c.tickets) == open - 1 && YoursCount(c.tickets) == yours + 1;
    c.ReleaseTask();
    assert OpenCount(c.tickets) == open && YoursCount(c.tickets) == yours;
    assert c.CurrentTicket().value.assignedTo.None? && c.CurrentTicket().value.assignedOperator.None?;
  }

  /** The quick-action toggles survive mode switches. */
  method TogglesSurviveModeSwitch(c: RemoteAssistanceConsole)
    requires c.Valid()
    modifies c
  {
    ghost var hazards, hold := c.hazardsOn, c.waitForInstructions;
    c.QuickAction("hazards");
    c.SelectMode(Nudge);
    c.SelectMode(Draw);
    c.QuickAction("honk");
    assert c.hazardsOn == !hazards && c.waitForInstructions == hold;
  }

  /** A two-point path with a reason goes out in order to the current ticket's vehicle; the
      path is then empty, the reason stays, and the same input cannot be sent twice. */
  method DrawAndSend(c: RemoteAssistanceConsole, p: Waypoint, q: Waypoint)
    requires c.Valid() && !c.isFleetMode && c.CurrentTicket().Some?
    modifies c
  {
    ghost var vehicle := c.CurrentTicket().value.vehicleId;
    c.SelectMode(Nudge);
    c.SelectMode(Draw);
    c.AddWaypoint(p);
    c.AddWaypoint(q);
    assert Reasons[0] == "Construction Zone";
    c.SelectReason("Construction Zone");
    assert c.CurrentTicket().Some? && c.CurrentTicket().value.vehicleId == vehicle;
    ghost var d := c.Inputs();
    assert d.pathPoints == [p, q];
    assert SelectBranch(d) == SendPath;
    var cmd := c.SendCommand(false);
    assert cmd == SentCommand(d, false, Some(vehicle));
    assert cmd == Some(PathCommand(Some(vehicle), [p, q]));
    assert c.pathPoints == [] && c.selectedReason == "Construction Zone";
    assert SendDisabled(c.Inputs());
  }

  /** Declining the fleet-wide confirmation keeps action and pin, and choosing another
      action afterwards still keeps the pin. */
  method FleetDeclined(c: RemoteAssistanceConsole, p: LatLng)
    requires c.Valid() && c.interventionMode != Relocate
    modifies c
  {
    c.SelectFleetScope();
    c.SelectMapAction(RoadClosure);
    c.MapClick(p);
    assert Reasons[3] == "Event Closure (Marathon/Parade)";
    c.SelectReason("Event Closure (Marathon/Parade)");
    ghost var d := c.Inputs();
    assert SelectBranch(d) == FleetEdit;
    var cmd := c.SendCommand(false);
    assert cmd.None? && c.selectedMapAction == Some(RoadClosure) && c.fleetBlockerLocation == Some(p);
    c.SelectMapAction(Hazard);
    assert c.fleetBlockerLocation == Some(p);
  }

  /** Confirming a fleet edit dispatches action, pin and reason, clears both fleet fields
      and stays in fleet scope. */
  method FleetConfirmed(c: RemoteAssistanceConsole, p: LatLng)
    requires c.Valid() && c.isFleetMode && c.interventionMode != Relocate && c.selectedReason == "Road Debris"
    modifies c
  {
    c.SelectMapAction(Hazard);
    c.MapClick(p);
    ghost var d := c.Inputs();
    assert SelectBranch(d) == FleetEdit;
    var cmd := c.SendCommand(true);
    assert cmd == Some(FleetMapEdit(Hazard, p, "Road Debris"));
    assert c.selectedMapAction.None? && c.fleetBlockerLocation.None? && c.isFleetMode;
  }

  /** A map click in fleet scope before any action is chosen places nothing; in relocate
      mode the same click sets the pickup pin even in fleet scope. */
  method MapClickRouting(c: RemoteAssistanceConsole, p: LatLng)
    requires c.Valid()
    modifies c
  {
    c.SelectVehicleScope();
    c.SelectMode(Draw);
    c.SelectFleetScope();
    c.MapClick(p);
    assert c.fleetBlockerLocation.None? && c.newPickupLocation.None?;
    c.SelectMode(Relocate);
    c.MapClick(p);
    assert c.newPickupLocation == Some(p) && c.fleetBlockerLocation.None?;
  }

  /** A fresh console starts in draw mode, vehicle scope, with nothing to send. */
  method FreshConsole()
  {
    var c := new RemoteAssistanceConsole();
    assert SendDisabled(c.Inputs());
  }
}
