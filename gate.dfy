/**
  The command readiness gate and dispatcher of the console: the inputs the send button reads,
  its `disabled` predicate and the "enabled" predicate its styling repeats, the branch
  `handleSendCommand` takes, the command it dispatches, the inputs it leaves behind, and the
  status line under the button.
*/
module Gate {
  import opened Wrappers

  datatype Mode = Draw | Nudge | Relocate
  datatype NudgeAction = PullOver | ProceedSlowly | WaitForSignal | Resume | MoveLeft | MoveRight
  datatype BlockerAction = RoadClosure | Hazard | Construction

  /** A waypoint in the video overlay's pixel space; never computed with. */
  datatype Waypoint = Waypoint(x: real, y: real)
  /** A map position; never computed with. */
  datatype LatLng = LatLng(lat: real, lng: real)

  /** The eight incident reasons of the reason selector; `""` is "Select reason...". */
  const Reasons: seq<string> := [
    "Construction Zone",
    "Road Debris",
    "Unclear Lane Markings",
    "Event Closure (Marathon/Parade)",
    "Pickup Location Mismatch",
    "Narrow Passage",
    "Heavy Traffic Merge",
    "Other Obstruction"]

  /** The part of the console state that the send button and `handleSendCommand` read. */
  datatype Draft = Draft(
    interventionMode: Mode,
    selectedReason: string,
    pathPoints: seq<Waypoint>,
    selectedNudgeAction: Option<NudgeAction>,
    newPickupLocation: Option<LatLng>,
    isFleetMode: bool,
    selectedMapAction: Option<BlockerAction>,
    fleetBlockerLocation: Option<LatLng>)

  /** The current mode's input buffer holds something. */
  predicate ModeInputPresent(d: Draft)
  {
    match d.interventionMode
    case Draw => |d.pathPoints| > 0
    case Nudge => d.selectedNudgeAction.Some?
    case Relocate => d.newPickupLocation.Some?
  }

  /** The condition under which the send button is styled as active. */
  function SendEnabled(d: Draft): (r: bool)
    ensures r <==> d.selectedReason != "" &&
                   (if d.isFleetMode then d.selectedMapAction.Some? && d.fleetBlockerLocation.Some?
                    else ModeInputPresent(d))
  {
    d.selectedReason != "" &&
    ((d.isFleetMode && d.selectedMapAction.Some? && d.fleetBlockerLocation.Some?) ||
     (!d.isFleetMode && ((d.interventionMode == Draw && |d.pathPoints| > 0) ||
                         (d.interventionMode == Nudge && d.selectedNudgeAction.Some?) ||
                         (d.interventionMode == Relocate && d.newPickupLocation.Some?))))
  }

  /** The send button's `disabled` attribute, which is exactly the negation of the styling. */
  function SendDisabled(d: Draft): (r: bool)
    ensures r == !SendEnabled(d)
  {
    d.selectedReason == "" ||
    (!d.isFleetMode && d.interventionMode == Draw && |d.pathPoints| == 0) ||
    (!d.isFleetMode && d.interventionMode == Nudge && d.selectedNudgeAction.None?) ||
    (!d.isFleetMode && d.interventionMode == Relocate && d.newPickupLocation.None?) ||
    (d.isFleetMode && (d.selectedMapAction.None? || d.fleetBlockerLocation.None?))
  }

  /** The branches of the if-chain in `handleSendCommand`. */
  datatype SendBranch = FleetEdit | SendPath | SendNudge | UpdatePickup | NoBranch

  function ModeBranch(m: Mode): SendBranch
  {
    match m
    case Draw => SendPath
    case Nudge => SendNudge
    case Relocate => UpdatePickup
  }

  /** The branch `handleSendCommand` takes. It does not look at the reason: behind an enabled
      button it takes the fleet branch exactly in fleet scope, and otherwise the current mode's. */
  function SelectBranch(d: Draft): (b: SendBranch)
    ensures SendEnabled(d) ==> b == (if d.isFleetMode then FleetEdit else ModeBranch(d.interventionMode))
    ensures b == FleetEdit ==> d.isFleetMode
    ensures b != NoBranch ==> b == FleetEdit || b == ModeBranch(d.interventionMode)
  {
    if d.isFleetMode && d.selectedMapAction.Some? && d.fleetBlockerLocation.Some? then FleetEdit
    else if d.interventionMode == Draw && |d.pathPoints| > 0 then SendPath
    else if d.interventionMode == Nudge && d.selectedNudgeAction.Some? then SendNudge
    else if d.interventionMode == Relocate && d.newPickupLocation.Some? then UpdatePickup
    else NoBranch
  }

  /** Only the disabled button keeps a fleet-scope send from dispatching a vehicle command:
      fleet scope without a pin, with a leftover path, falls into the path branch. */
  lemma BranchReliesOnGate(p: Waypoint)
    ensures var d := Draft(Draw, "Road Debris", [p], None, None, true, Some(Hazard), None);
            SendDisabled(d) && SelectBranch(d) == SendPath
  {
  }

  /** The abstract command a send dispatches; the affected-vehicle count is a fixed placeholder. */
  datatype Command =
    | FleetMapEdit(action: BlockerAction, location: LatLng, reason: string)
    | PathCommand(vehicle: Option<string>, points: seq<Waypoint>)
    | NudgeCommand(vehicle: Option<string>, nudge: NudgeAction)
    | PickupCommand(vehicle: Option<string>, pickup: LatLng)

  /** What `handleSendCommand` dispatches for the vehicle `vehicle` (`currentTicket?.vehicleId`),
      given the answer `confirmed` to the fleet-wide confirmation prompt: each branch sends
      its own kind of command, so behind an enabled button a fleet-scope send is always
      the fleet edit, never a leftover vehicle input. */
  function SentCommand(d: Draft, confirmed: bool, vehicle: Option<string>): (r: Option<Command>)
    ensures SendEnabled(d) ==> (r.Some? <==> !d.isFleetMode || confirmed)
    ensures SelectBranch(d) == FleetEdit ==>
              r == (if confirmed then Some(FleetMapEdit(d.selectedMapAction.value, d.fleetBlockerLocation.value, d.selectedReason))
                    else None)
    ensures SelectBranch(d) == SendPath ==> r == Some(PathCommand(vehicle, d.pathPoints))
    ensures SelectBranch(d) == SendNudge ==> r == Some(NudgeCommand(vehicle, d.selectedNudgeAction.value))
    ensures SelectBranch(d) == UpdatePickup ==> r == Some(PickupCommand(vehicle, d.newPickupLocation.value))
    ensures SelectBranch(d) == NoBranch ==> r.None?
    ensures r.Some? && r.value.FleetMapEdit? ==>
              d.isFleetMode && confirmed && Some(r.value.action) == d.selectedMapAction &&
              Some(r.value.location) == d.fleetBlockerLocation && r.value.reason == d.selectedReason
    ensures r.Some? && r.value.PathCommand? ==> r.value.points == d.pathPoints && r.value.points != []
    ensures r.Some? && r.value.NudgeCommand? ==> d.selectedNudgeAction == Some(r.value.nudge)
    ensures r.Some? && r.value.PickupCommand? ==> d.newPickupLocation == Some(r.value.pickup)
    ensures r.Some? && !r.value.FleetMapEdit? ==> r.value.vehicle == vehicle
  {
    match SelectBranch(d)
    case FleetEdit =>
      if confirmed then Some(FleetMapEdit(d.selectedMapAction.value, d.fleetBlockerLocation.value, d.selectedReason))
      else None
    case SendPath => Some(PathCommand(vehicle, d.pathPoints))
    case SendNudge => Some(NudgeCommand(vehicle, d.selectedNudgeAction.value))
    case UpdatePickup => Some(PickupCommand(vehicle, d.newPickupLocation.value))
    case NoBranch => None
  }

  /** The inputs `handleSendCommand` leaves behind. The reason, the scope and the mode are never
      touched; a declined fleet edit changes nothing; every branch clears only the input it sent,
      so a command that went out cannot be sent a second time. */
  function AfterSend(d: Draft, confirmed: bool): (r: Draft)
    ensures r.selectedReason == d.selectedReason && r.isFleetMode == d.isFleetMode
    ensures r.interventionMode == d.interventionMode
    ensures SelectBranch(d) == FleetEdit && !confirmed ==> r == d
    ensures SelectBranch(d) == FleetEdit && confirmed ==>
              r.selectedMapAction.None? && r.fleetBlockerLocation.None? &&
              r.(selectedMapAction := d.selectedMapAction, fleetBlockerLocation := d.fleetBlockerLocation) == d
    ensures SelectBranch(d) == SendPath ==> r == d.(pathPoints := [])
    ensures SelectBranch(d) == SendNudge ==> r == d.(selectedNudgeAction := None)
    ensures SelectBranch(d) == UpdatePickup ==> r == d.(newPickupLocation := None)
    ensures SentCommand(d, confirmed, None).None? ==> r == d
    ensures SentCommand(d, confirmed, None).Some? ==> !SendEnabled(r)
  {
    match SelectBranch(d)
    case FleetEdit =>
      if confirmed then d.(selectedMapAction := None, fleetBlockerLocation := None) else d
    case SendPath => d.(pathPoints := [])
    case SendNudge => d.(selectedNudgeAction := None)
    case UpdatePickup => d.(newPickupLocation := None)
    case NoBranch => d
  }

  /** The status line under the send button. */
  datatype Hint =
    | SelectActionAbove
    | ClickMapToPlacePin
    | RequiresConfirmation
    | SelectReasonFirst
    | PlaceWaypoints
    | ClickMapToSetLocation
    | ReadyToSend

  /** The status line as written. In vehicle scope it says "Ready to send" exactly when the
      button is enabled; in fleet scope it never looks at the reason. */
  function StatusHint(d: Draft): (h: Hint)
    ensures !d.isFleetMode ==> (h == ReadyToSend <==> SendEnabled(d))
    ensures d.isFleetMode ==> (h == RequiresConfirmation <==> d.selectedMapAction.Some? && d.fleetBlockerLocation.Some?)
    ensures d.isFleetMode ==> h != SelectReasonFirst
  {
    if d.isFleetMode then
      if d.selectedMapAction.None? then SelectActionAbove
      else if d.fleetBlockerLocation.None? then ClickMapToPlacePin
      else RequiresConfirmation
    else if d.selectedReason == "" then SelectReasonFirst
    else if d.interventionMode == Draw && |d.pathPoints| == 0 then PlaceWaypoints
    else if d.interventionMode == Nudge && d.selectedNudgeAction.None? then SelectActionAbove
    else if d.interventionMode == Relocate && d.newPickupLocation.None? then ClickMapToSetLocation
    else ReadyToSend
  }

  /** A fleet edit with action and pin but no reason: the line announces the confirmation
      step while the button stays disabled, and nothing asks for the missing reason. */
  lemma FleetHintIgnoresReason(a: BlockerAction, p: LatLng)
    ensures var d := Draft(Draw, "", [], None, None, true, Some(a), Some(p));
            StatusHint(d) == RequiresConfirmation && SendDisabled(d)
  {
  }

  /** The status line with the reason checked in fleet scope as well: it announces a send
      (or its confirmation step) exactly when the button is enabled, and asks for the reason
      whenever the reason alone is missing. */
  function CorrectedStatusHint(d: Draft): (h: Hint)
    ensures (h == ReadyToSend || h == RequiresConfirmation) <==> SendEnabled(d)
    ensures h == RequiresConfirmation ==> d.isFleetMode
    ensures h == ReadyToSend ==> !d.isFleetMode
    ensures d.selectedReason == "" && SendEnabled(d.(selectedReason := "Other Obstruction")) ==> h == SelectReasonFirst
  {
    if d.isFleetMode then
      if d.selectedMapAction.None? then SelectActionAbove
      else if d.fleetBlockerLocation.None? then ClickMapToPlacePin
      else if d.selectedReason == "" then SelectReasonFirst
      else RequiresConfirmation
    else StatusHint(d)
  }
}
