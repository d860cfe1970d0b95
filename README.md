# Activity manager: the place-change state machine

This project models the activity manager of a browser-side application framework. The manager ties navigation to screen controllers. A *place* is a navigable application state. An *activity* is the controller shown for a place. When a place-change command arrives, the manager either ignores it or hands it to the running activity. Otherwise it cancels it, or it stops the running activity, clears the scoped event bus and starts the activity mapped to the new place.

The model has three modules:

- `Collaborators` (`collaborators.dfy`) holds what the manager talks to. A `Place` is a place class (`PlaceKind`) plus a token. An `Activity` is an identity plus three flags: delegable, `HasEventBus` and `HasCommandRouter`. `Answers` holds the answers that code outside the manager gives during one command: `isDelegable`, the result of `delegate`, `mayStop`, and the user's confirm answer. `Event` is one call the manager makes on a collaborator that changes or triggers something: `delegate`, the confirm dialog, `onStop`, `removeHandlers`, `setEventBus`, `onStart` and the router start. Pure queries are not logged. `PlaceChangeCommand` is a class whose `silenced` and `cancelled` fields the manager sets in place.
- `Lifecycle` (`lifecycle.dfy`) is a monitor over a call log. `Replay` tracks which activity the log says is running. A log *breaks the lifecycle* when it:
  - starts an activity while another one is running;
  - stops, delegates to or router-starts an activity other than the running one;
  - clears the scoped bus, or sets it on an activity through `setEventBus`, while an activity runs. `delegate` also receives the scoped bus, at line 104 (passed down from line 50) and at line 94, while its activity runs; the log does not record that hand-over, and the monitor allows it;
  - shows the confirm dialog when nothing runs.
- `ActivityManagement` (`activity_manager.dfy`) holds the rest:
  - `Handle` is a pure description of one command, built from the stage functions `Dispatch`, `Undelegated` and `Transition`.
  - The lemmas state what each of the five paths does.
  - The class `ActivityManager` has the source's fields: `mapper`, `panel`, `currentActivity`, and the bus state as a handler-generation counter. It also keeps a ghost call log `Trace`. Its methods change these fields step by step, as the source does. `OnPlaceChangeCommand` is proved to produce exactly the state, command and calls `Handle` describes. Its object invariant `Valid()` says the call log follows the lifecycle and ends with the current activity running. The constructor establishes `Valid()`, and `SetPanel` and `OnPlaceChangeCommand` keep it.
  - Source lines 71-96 (clear the bus, install and start the new activity) are a method of their own, `StartActivity`, so that each method's proof stays small. It is an internal stage of `OnPlaceChangeCommand`: it requires a log in which no activity runs, which holds once the current activity has been stopped, and it establishes `Valid()`.

## Model

| member | source | states |
|---|---|---|
| ActivityManagement.ActivityManager.OnPlaceChangeCommand | atlas-client-common/src/main/java/nl/overheid/aerius/wui/activity/AbstractActivityManager.java:41-97 | The new manager state, the command's new flags and the calls made are exactly those `Handle` gives for the old state, the previous place and the answers. The call log keeps following the lifecycle. |
| ActivityManagement.ActivityManager.DelegateToActivity | atlas-client-common/src/main/java/nl/overheid/aerius/wui/activity/AbstractActivityManager.java:99-111 | The result is true if and only if an activity is present, is delegable, accepts the place, and its `delegate` returns true. `delegate` is called exactly when the activity is present, delegable and accepting. A missing or non-delegable activity gives false and no call. |
| ActivityManagement.ActivityManager.SuspendActivity | atlas-client-common/src/main/java/nl/overheid/aerius/wui/activity/AbstractActivityManager.java:118-137 | No activity: true, no calls. No stop message: true, exactly one `onStop`. A stop message the user confirms: true, the dialog and then exactly one `onStop`. A stop message the user declines: false, only the dialog, no `onStop`. |
| ActivityManagement.ActivityManager.StartActivity | atlas-client-common/src/main/java/nl/overheid/aerius/wui/activity/AbstractActivityManager.java:71-96 | Called when no activity runs. Clears the bus once, then makes the mapped activity current. The log grows by `removeHandlers` followed by the new-activity calls of `StartCalls`, with the panel currently held. Afterwards the log follows the lifecycle with the new activity running (`Valid()`). |
| ActivityManagement.ActivityManager.SetPanel | atlas-client-common/src/main/java/nl/overheid/aerius/wui/activity/AbstractActivityManager.java:113-116 | The panel becomes the value given. Nothing else changes. |
| ActivityManagement.ActivityManager.constructor | atlas-client-common/src/main/java/nl/overheid/aerius/wui/activity/AbstractActivityManager.java:32-39 | A new manager has no current activity, no panel, an untouched bus and an empty call log. It keeps the given mapper. |
| ActivityManagement.PathChoice | atlas-client-common/src/main/java/nl/overheid/aerius/wui/activity/AbstractActivityManager.java:42-97 | Each of the five paths is taken if and only if its condition holds: same place class; delegated; not delegated and redirected; not redirected and the user declines to stop; otherwise a transition. |
| ActivityManagement.SameKindIsNoOp | atlas-client-common/src/main/java/nl/overheid/aerius/wui/activity/AbstractActivityManager.java:43-48 | If the previous place has the same class as the target, the state and the command stay as they were and no call is made. |
| ActivityManagement.DelegationLeavesStateAlone | atlas-client-common/src/main/java/nl/overheid/aerius/wui/activity/AbstractActivityManager.java:50-54 | If the current activity takes the command over, the state and the command stay as they were. The only call is that `delegate`: no `onStop`, no `removeHandlers`, no `onStart`. |
| ActivityManagement.RedirectIsCancelled | atlas-client-common/src/main/java/nl/overheid/aerius/wui/activity/AbstractActivityManager.java:56-61 | A redirect that was not delegated ends silenced and cancelled. The current activity and the bus are kept, and no lifecycle call is made. |
| ActivityManagement.RefusedStopCancels | atlas-client-common/src/main/java/nl/overheid/aerius/wui/activity/AbstractActivityManager.java:63-69 | When the user declines the stop message, the command ends silenced and cancelled. The activity is kept and not stopped, no handlers are removed, and the last call is the dialog. |
| ActivityManagement.TransitionResult | atlas-client-common/src/main/java/nl/overheid/aerius/wui/activity/AbstractActivityManager.java:63-96 | The mapped activity becomes current, the bus is cleared exactly once, and the panel and the command are untouched. Before the clear: the old activity's `onStop`, and nothing is started. After the clear: `onStart` with the held panel, and nothing is stopped. `setEventBus`, the router start and `delegate` happen after the clear exactly when the new activity supports them and, for `delegate`, accepts the place. |
| ActivityManagement.NextDelegateResultIgnored | atlas-client-common/src/main/java/nl/overheid/aerius/wui/activity/AbstractActivityManager.java:90-96 | The outcome does not depend on what the new activity's `delegate` returns. |
| ActivityManagement.OnlyTransitionClearsHandlers | atlas-client-common/src/main/java/nl/overheid/aerius/wui/activity/AbstractActivityManager.java:71-81 | The bus generation goes up by one on a transition and stays the same on every other path. The current activity changes only on a transition, and no path changes the panel. |
| ActivityManagement.CancelledExactlyWhenRejected | atlas-client-common/src/main/java/nl/overheid/aerius/wui/activity/AbstractActivityManager.java:56-69 | The command ends cancelled, and ends silenced, exactly when it already was or the path was a redirect or a refused stop. Its place and redirect flag never change. |
| ActivityManagement.BeforeClearFacts | atlas-client-common/src/main/java/nl/overheid/aerius/wui/activity/AbstractActivityManager.java:50-69 | The calls made before the bus is cleared never clear it and never start an activity. They include the current activity's `onStop` whenever its suspension succeeds. |
| ActivityManagement.StartCallsFacts | atlas-client-common/src/main/java/nl/overheid/aerius/wui/activity/AbstractActivityManager.java:77-96 | The calls on the new activity start it with the panel, never stop anything and never clear the bus. Each optional call is made exactly when the activity supports it. |
| ActivityManagement.SuspensionStops | atlas-client-common/src/main/java/nl/overheid/aerius/wui/activity/AbstractActivityManager.java:118-137 | A successful suspension leaves no activity running. A refused one leaves the activity running. |
| ActivityManagement.StartCallsRun | atlas-client-common/src/main/java/nl/overheid/aerius/wui/activity/AbstractActivityManager.java:76-96 | The calls on the new activity are made while nothing runs, and they leave it running. |
| ActivityManagement.HandleKeepsLifecycle | atlas-client-common/src/main/java/nl/overheid/aerius/wui/activity/AbstractActivityManager.java:42-137 | On every path, the calls of one command, replayed from the running activity, keep the lifecycle, and the current activity afterwards is the one running. So, as long as no collaborator re-enters the manager during a command, two activities never run at once, only the running activity is stopped, and the bus is cleared only between activities. |
| ActivityManagement.SuspendedLeavesNothingRunning | atlas-client-common/src/main/java/nl/overheid/aerius/wui/activity/AbstractActivityManager.java:50-69 | After a refused delegation and a successful suspension, a log that followed the lifecycle with the current activity running follows it with nothing running. |
| ActivityManagement.ClearAndStartRun | atlas-client-common/src/main/java/nl/overheid/aerius/wui/activity/AbstractActivityManager.java:71-96 | Clearing the bus and making the new-activity calls, starting from a log in which nothing runs, keeps the lifecycle and leaves the new activity running. |
| Lifecycle.FollowsPrefix | atlas-client-common/src/main/java/nl/overheid/aerius/wui/activity/AbstractActivityManager.java:42-137 | If a log follows the lifecycle, so does each of its prefixes. At no point in it were two activities running at once. |
| ActivityManagement.StepKeepsLifecycle | atlas-client-common/src/main/java/nl/overheid/aerius/wui/activity/AbstractActivityManager.java:42-137 | A call log that follows the lifecycle still follows it after the calls of one more command. |

## Left out

- `aerius-wui-geo-client/src/main/java/nl/overheid/aerius/geo/wui/Map.java` is not part of this model. It is a widget interface whose only code is a one-line forwarding default method.
- Handler binding through `GWT.create` and `EventBinder` (source lines 18-21 and 38) is toolkit reflection. In the model, the caller invokes `OnPlaceChangeCommand` directly.
- `GWTProd.log` calls are logging only.
- `Window.confirm` is user interface I/O. The user's answer is the `confirmed` input, and showing the dialog is a `Confirm` call in the log.
- The internals of `ResettableEventBus` are left out. `removeHandlers` is a counter increment (`handlerGeneration`) plus a log entry. `setEventBus` is a log entry only.
- Java `instanceof` and class equality are replaced by capability flags on `Activity` and by place-kind equality.
- The answers of code outside the manager are inputs (`Answers`): `isDelegable`, the result of `delegate`, and `mayStop`. Activities have no modelled state of their own, and two activities with the same identity and flags are the same activity.
- `delegate(bus, command)` could in principle change the command, for example by setting a redirect. The model assumes only the manager changes the command's flags.
- The previous place comes from `PlaceController.getPreviousPlace()`. It is an input of `OnPlaceChangeCommand`; the place controller itself is not modelled.
- Null values are left out. `mapper` is a total function to activities, and a command always carries a place. In the source, a mapper that returns null throws at line 83, and a command without a place throws in the class comparison at line 46 whenever a previous place exists.
- `PlaceChangeCommand` beyond the `redirected`, `silenced` and `cancelled` flags is not part of this model. Its `silence` and `cancel` are modelled only as setting those flags.
- Re-entrance is left out. The model treats one command as atomic: collaborators are assumed not to call back into the manager. In the source, `onStart(panel)` (line 86), `delegate` (lines 94 and 104) and `onStop()` (lines 128 and 133) run foreign code. That code holds the scoped bus, which forwards to the global bus the handler is bound to (lines 35-38). A `PlaceChangeCommand` fired from there would run `onPlaceChangeCommand` again before the outer call finishes. The outer call would then go on with its own local activity, which the inner call may already have stopped. The lifecycle guarantees (`HandleKeepsLifecycle`, `StepKeepsLifecycle`, `Valid()`) hold only without such callbacks.
- Exceptions are left out. The model assumes every collaborator call returns normally; the source has no try/finally, so an exception ends the handler part-way. If `mapper.getActivity` throws at line 76, the old activity has already been stopped (line 128 or 133) and the bus cleared (line 73), but `currentActivity` still names the stopped activity, because line 81 is not reached; the next command would call its `onStop` again. If `onStop` throws (line 128 or 133), the command is neither cancelled nor carried through. Exceptions from `setEventBus` (line 78), `onStart` (line 86), the router start (line 88) and `delegate` (lines 94 and 104) likewise leave a partial state. The lifecycle guarantees (`HandleKeepsLifecycle`, `StepKeepsLifecycle`, `Valid()`) hold only when these calls return normally.
- Pure queries are not in the call log `Trace`: `getPreviousPlace` (line 43), `mapper.getActivity` (line 76), `isDelegable` (lines 93 and 103) and `mayStop` (line 123). Their answers are inputs instead.
- `mapper` is a `const` function fixed for the manager's whole life, so the same place always maps to the same activity. A real mapper may return a fresh activity instance on every call. In the model, the activity returned at line 76 is identified by its identity and flags alone.
