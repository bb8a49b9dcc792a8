# Remote assistance console: intervention control logic

This project models the control logic of `RemoteAssistanceConsole`. That is an operator console for remotely assisting stalled autonomous vehicles. The operator picks a stalled-vehicle ticket and claims it, taking it over from another operator only after a confirmation. The operator then either works on one vehicle or edits the fleet-wide road map:

- In vehicle scope, one of three intervention modes is active. Draw collects a path of waypoints, nudge holds one nudge command and relocate holds a new pickup pin.
- In fleet scope, the operator picks a blocker action (road closure, hazard or construction) and places a pin for it.

A send button is enabled only when the collected input is complete and an incident reason is chosen. Sending dispatches the command and clears the input that was sent.

The component's state hooks become the fields of one class. Each event handler becomes a method on it.

- `wrappers.dfy`, module `Wrappers`: the `Option` type that stands for `null`, `''` and `undefined`.
- `tickets.dfy`, module `Tickets`: the ticket record and the lookup of the current ticket by id. It also holds the list mapping that `updateTicketAssignment` performs and the "open" and "yours" counters.
- `gate.dfy`, module `Gate`: pure functions over a snapshot (`Draft`) of the inputs that the send button reads. They cover the `disabled` predicate, the "enabled" predicate that the button's styling repeats, the branch `handleSendCommand` takes, the command it dispatches, the inputs it leaves behind, and the status line.
- `console.dfy`, module `AssistConsole`: the class `RemoteAssistanceConsole`, with the seed tickets, the object invariant `Valid()` and one method per handler. The methods use field-level `modifies` clauses (``this`pathPoints``, …), so every method's frame says exactly which state hooks it may change.
- `scenarios.dfy`, module `Scenarios`: operator sessions that are proved using only the method contracts. They cover takeover with confirm and with cancel, claim then release, toggles surviving mode switches, a path send, fleet decline and confirm, and map-click routing.

`Valid()` is the object invariant. It says:

- every ticket id is unique;
- on every ticket, `assignedTo` is null exactly when `assignedOperator` is null;
- every operator name is non-empty;
- a ticket held by another operator never carries the local operator's name;
- only the current mode's buffer can hold input;
- a blocker pin exists only together with a blocker action;
- a blocker action exists only in fleet scope.

The constructor establishes it from the seed tickets and every handler preserves it.

The model follows what the handlers do, including these points where the code departs from what a reader of the screen might expect:

- Confirming a takeover writes `('You', 'Sarah K.')`, exactly as a direct claim does. It does not clear the operator name.
- Release does not check that the ticket is yours. The handler frees the current ticket whoever holds it; the screen only offers Release on a ticket of yours (see "## Left out").
- Confirm does not check that a confirmation is pending. Only the dialog's visibility guards it.
- Choosing a different fleet action keeps a blocker pin that is already placed.
- Entering fleet scope keeps the vehicle-mode buffers. A map click in relocate mode still sets the pickup pin in fleet scope.
- `handleSendCommand` itself checks neither the reason nor the gate. The `disabled` attribute is the only guard, so `SendCommand` takes `SendEnabled` as its precondition. `Gate.BranchReliesOnGate` shows what the handler would do without that guard.
- Errors such as an unknown ticket are not reported as values. The handlers return early and change nothing.

## Model

| member | source | states |
|---|---|---|
| Tickets.FindIndex | src/RemoteAssistanceConsole.jsx:118 | the index found holds the id and no earlier ticket has it; no index means no ticket has the id |
| Tickets.Find | src/RemoteAssistanceConsole.jsx:118 | `currentTicket` is a ticket of the list with the selected id, and it is missing exactly when no ticket has that id |
| Tickets.UpdateAssignment | src/RemoteAssistanceConsole.jsx:294-302 | the list keeps its length and order; tickets with another id are untouched; a matching ticket gets the new pair and keeps every other field |
| Tickets.UpdateAtFoundIndex | src/RemoteAssistanceConsole.jsx:294-302 | with unique ids, the reassignment rewrites exactly the one ticket that the lookup finds |
| Tickets.UpdatePreservesValid | src/RemoteAssistanceConsole.jsx:294-302 | writing a consistent pair keeps the ids unique and every ticket's assignment consistent (null iff null, non-empty name) |
| Tickets.FindAfterUpdate | src/RemoteAssistanceConsole.jsx:294-302 | after reassignment, the current ticket is the old current ticket with the new pair |
| Tickets.Count | src/RemoteAssistanceConsole.jsx:346-348 | a filter count is at most the list length, and it is zero iff no ticket passes the filter |
| Tickets.CountReplace | src/RemoteAssistanceConsole.jsx:346-348 | replacing one ticket changes a count by the old ticket's and the new ticket's contributions |
| Tickets.OpenAndYoursDisjoint | src/RemoteAssistanceConsole.jsx:346-348 | the open and yours counters together never exceed the number of tickets |
| Tickets.ClaimMovesCounters | src/RemoteAssistanceConsole.jsx:271-273 | claiming an open ticket lowers "open" by one and raises "yours" by one |
| Tickets.ReleaseMovesCounters | src/RemoteAssistanceConsole.jsx:287-292 | releasing a ticket of yours raises "open" by one and lowers "yours" by one |
| Gate.SendEnabled | src/RemoteAssistanceConsole.jsx:1647-1650 | enabled iff a reason is chosen and either (fleet scope) action and pin are both set or (vehicle scope) the current mode's buffer is non-empty |
| Gate.SendDisabled | src/RemoteAssistanceConsole.jsx:1638-1642 | the `disabled` attribute is exactly the negation of the enabled predicate |
| Gate.SelectBranch | src/RemoteAssistanceConsole.jsx:202-240 | while the button is enabled, the fleet branch is taken iff in fleet scope, and otherwise the current mode's branch; the fleet branch is never taken in vehicle scope |
| Gate.BranchReliesOnGate | src/RemoteAssistanceConsole.jsx:202-240 | the handler alone does not enforce scope: fleet scope without a pin but with a leftover path would send the path, and only the disabled button prevents it |
| Gate.SentCommand | src/RemoteAssistanceConsole.jsx:202-240 | each branch sends its own kind of command (the fleet branch the fleet edit if confirmed and nothing otherwise, the path, nudge and pickup branches their command, no branch nothing); behind an enabled button a command goes out iff in vehicle scope or the fleet prompt is confirmed; its payload is the action, pin and reason, the path in order, the nudge or the pickup pin, addressed to the current vehicle |
| Gate.AfterSend | src/RemoteAssistanceConsole.jsx:202-240 | reason, scope and mode are never changed; a declined fleet edit changes nothing; a confirmed one clears only action and pin; each vehicle branch clears only its own buffer; after any dispatch the button is disabled |
| Gate.StatusHint | src/RemoteAssistanceConsole.jsx:1676-1681 | in vehicle scope the line says "Ready to send" iff the button is enabled; in fleet scope it says "Requires confirmation" iff action and pin are set, and it never asks for the reason |
| Gate.FleetHintIgnoresReason | src/RemoteAssistanceConsole.jsx:1676 | fleet scope with action and pin but no reason shows "Requires confirmation" while the button is disabled |
| Gate.CorrectedStatusHint | src/RemoteAssistanceConsole.jsx:1676-1681 | the corrected line announces a send or its confirmation exactly when the button is enabled, and asks for the reason when only the reason is missing |
| AssistConsole.SeedTickets | src/RemoteAssistanceConsole.jsx:48-105 | the console starts with four tickets, AV-2847 to AV-2850 in that order: the first yours (Sarah K.), the second held by Mike T., the last two open |
| AssistConsole.SeedIdsUnique | src/RemoteAssistanceConsole.jsx:48-105 | the seed ticket ids are distinct |
| AssistConsole.SeedAssignmentsConsistent | src/RemoteAssistanceConsole.jsx:48-105 | every seed ticket is either open with no operator, or held with a named operator |
| AssistConsole.SeedTicketsValid | src/RemoteAssistanceConsole.jsx:48-105 | the seed data satisfies the ticket invariant |
| AssistConsole.RemoteAssistanceConsole.StatusLine | src/RemoteAssistanceConsole.jsx:1676-1681 | the line the console shows: in vehicle scope "Ready to send" iff the send button is not disabled; in fleet scope "Requires confirmation" iff action and pin are set, and never a request for the reason |
| AssistConsole.RemoteAssistanceConsole.constructor | src/RemoteAssistanceConsole.jsx:30-105 | the initial state hooks: ticket AV-2847, draw mode, vehicle scope, empty buffers, toggles off, no dialog, the seed tickets; the invariant holds |
| AssistConsole.RemoteAssistanceConsole.SelectTicket | src/RemoteAssistanceConsole.jsx:356 | only the selected id changes |
| AssistConsole.RemoteAssistanceConsole.UpdateTicketAssignment | src/RemoteAssistanceConsole.jsx:294-302 | the ticket list becomes its reassignment, nothing else changes, and the invariant is kept |
| AssistConsole.RemoteAssistanceConsole.TakeTask | src/RemoteAssistanceConsole.jsx:265-276 | with no current ticket nothing changes; a ticket held by `'other'` only opens the dialog and leaves the tickets as they were; any other ticket becomes `('You','Sarah K.')` at once, which moves an open ticket from "open" to "yours" |
| AssistConsole.RemoteAssistanceConsole.ConfirmTakeFromOther | src/RemoteAssistanceConsole.jsx:278-285 | with no current ticket nothing changes; otherwise the current ticket becomes `('You','Sarah K.')` and the dialog closes |
| AssistConsole.RemoteAssistanceConsole.CancelTakeFromOther | src/RemoteAssistanceConsole.jsx:1733-1735 | the dialog closes and no ticket changes |
| AssistConsole.RemoteAssistanceConsole.ReleaseTask | src/RemoteAssistanceConsole.jsx:287-292 | with no current ticket nothing changes; otherwise the current ticket becomes `(null,null)`, which moves a ticket of yours from "yours" to "open" |
| AssistConsole.RemoteAssistanceConsole.SelectMode | src/RemoteAssistanceConsole.jsx:1408-1454 | the chosen mode's buffer is kept and the other two are emptied; toggles, reason and fleet fields are outside the frame |
| AssistConsole.RemoteAssistanceConsole.AddWaypoint | src/RemoteAssistanceConsole.jsx:708-724 | in draw mode the waypoint is appended to the path |
| AssistConsole.RemoteAssistanceConsole.ClearPath | src/RemoteAssistanceConsole.jsx:823-825 | the path becomes empty and nothing else changes |
| AssistConsole.RemoteAssistanceConsole.SelectNudgeAction | src/RemoteAssistanceConsole.jsx:1472-1494 | in nudge mode the pick replaces any earlier nudge selection |
| AssistConsole.RemoteAssistanceConsole.MapClick | src/RemoteAssistanceConsole.jsx:16-27 | relocate mode sets the pickup pin, even in fleet scope; otherwise the blocker pin is set only in fleet scope with an action chosen; in every other case nothing changes |
| AssistConsole.RemoteAssistanceConsole.ClearPickupLocation | src/RemoteAssistanceConsole.jsx:1056-1061 | the pickup pin is unset and nothing else changes |
| AssistConsole.RemoteAssistanceConsole.ClearBlockerLocation | src/RemoteAssistanceConsole.jsx:1082-1087 | the blocker pin is unset and nothing else changes |
| AssistConsole.RemoteAssistanceConsole.SelectVehicleScope | src/RemoteAssistanceConsole.jsx:1213-1217 | leaves fleet scope and clears both fleet fields |
| AssistConsole.RemoteAssistanceConsole.SelectFleetScope | src/RemoteAssistanceConsole.jsx:1232 | only the scope flag changes; vehicle buffers are kept |
| AssistConsole.RemoteAssistanceConsole.SelectMapAction | src/RemoteAssistanceConsole.jsx:1552-1575 | in fleet scope the action is set and a placed blocker pin is kept |
| AssistConsole.RemoteAssistanceConsole.SelectReason | src/RemoteAssistanceConsole.jsx:1529-1547 | the reason becomes the option picked in the vehicle-scope selector or in the fleet-scope selector at :1612-1631, which calls the same setter with the same options (one of the eight reasons, or empty) |
| AssistConsole.RemoteAssistanceConsole.QuickAction | src/RemoteAssistanceConsole.jsx:243-262 | `'wait'` flips only the hold toggle and `'hazards'` flips only the hazards toggle; `'honk'`, `'flash_lights'` and unknown actions change no state |
| AssistConsole.RemoteAssistanceConsole.SendCommand | src/RemoteAssistanceConsole.jsx:202-240 | callable only while the button is enabled; the new inputs are `AfterSend` of the old ones and the dispatched command is `SentCommand`; tickets, toggles, reason and scope are outside the frame |

## Left out

- Rendering is not modelled: the JSX layout, styles, the `<style>` block, Leaflet icons and markers, video overlays and the legend. They are view only.
- The camera selector (`activeCamera`) is not modelled. It is view state that no handler reads.
- The texts of `alert` and `window.confirm` are not modelled, and neither is coordinate formatting or the fixed "12 vehicles" figure. The confirmation is the `confirmed` parameter of `SendCommand`. The notifications of the assignment and quick-action handlers are omitted. The dispatched command is returned as an abstract `Command` value.
- Pixel positions from `getBoundingClientRect`, latitude/longitude floats and the hard-coded map positions are not modelled. Waypoints and map positions are opaque values that are never computed with.
- The priority and context colour mappings and the stall-time colouring are cosmetic, so they are not modelled.
- React's batched, asynchronous state updates and stale closure reads are not modelled. Each handler is one atomic step on the current state.
- Only some render conditions are preconditions. `AddWaypoint` needs draw mode, `SelectNudgeAction` needs nudge mode, `SelectMapAction` needs fleet scope, `SelectReason` needs a listed reason or empty, and `SendCommand` needs the enabled button.
- The other handlers are modelled without their render conditions, so the model accepts them in more states than the screen offers; every contract still holds there. `SelectMode` and `QuickAction` are rendered only in vehicle scope (:1264), and `SelectNudgeAction` also only in vehicle scope. `ClearPath` is rendered only in draw mode with a non-empty path (:823), `ClearPickupLocation` only in relocate mode with a pin (:1056), and `ClearBlockerLocation` only in fleet scope with action and pin (:1082). `ConfirmTakeFromOther` and `CancelTakeFromOther` are rendered only while the dialog is open and a current ticket exists (:1687). `Scenarios.MapClickRouting` uses this freedom: it switches to relocate mode while in fleet scope.
- TakeTask and ReleaseTask do not take their buttons' render conditions as preconditions. The screen shows Take only when the current ticket is not `'You'` (:590) and Release only when it is (:608-610), so releasing another operator's or an open ticket, and re-claiming one of yours, cannot be triggered from the screen. The methods still model what the handlers do in those cases.
- `assignedTo` is modelled as the values the program uses (`'You'`, `'other'`, `null`) rather than an arbitrary string.

## Findings

| source | as written | input that shows it | evidently intended | confidence | as-written member | corrected member |
|---|---|---|---|---|---|---|
| src/RemoteAssistanceConsole.jsx:1676 | in fleet scope the status line never checks the incident reason | fleet scope, action chosen, pin placed, reason empty: the line reads "Requires confirmation" while the send button is disabled, and nothing asks for the reason | ask for the reason first, as the vehicle-scope line does | medium; not executed | Gate.StatusHint, Gate.FleetHintIgnoresReason | Gate.CorrectedStatusHint |
