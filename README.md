# People list/detail controller — a Dafny model

This project models the App controller of a UI5 list/detail page bound to an
OData V4 service (`webapp/controller/App.controller.js`). Underneath its calls
into the framework, the controller is a small sequential view-state machine:

- the `appView` properties `busy`, `hasUIChanges`, `usernameEmpty` and `order`;
- the sticky technical-error latch `_bTechnicalErrors`;
- the detail area: its binding context, the keep-alive of that context, its visibility and the page layout around it.

The model has four files:

- `wrappers.dfy`: `Option`, which stands for JavaScript `undefined`.
- `app_view.dfy` (module `AppView`): the controller's whole state as a value, `ViewState`, and the rules the controller applies.
  - the rules are the change-flag rule, the sort cycle and its sorter, the keep-alive swap and message removal;
  - for each handler there is one specification function, `After<Handler>`;
  - the invariant `Inv` is defined here.
- `app_controller.dfy` (module `Controller`): class `AppController`.
  - Its fields mirror the `appView` properties, the latch and the detail-area controls.
  - Its methods update them one field at a time, as the handlers do through `setProperty`.
  - Each handler method is proved to produce exactly `After<Handler>` of the old state and to keep `Inv`.
  - The private helpers `_setUIChanges`, `_setBusy` and `_setDetailArea` are methods of their own, each proved to produce exactly `WithUIChanges`, `WithBusy` or `WithDetailArea` of the old state.
- `traces.dfy` (module `Traces`): handler calls and promise outcomes as events, `Run` over a sequence of them, and the lemmas relating the rules to each other.

Stand-ins for the framework:

- **Framework answers.**
  - `hasPendingChanges()` is the `pending: bool` parameter of each handler that asks for it.
  - The selected list item's binding context is an `Option<Context>` parameter.
  - An input event's `escPressed` and the edited row's `UserName` are parameters.
- **Asynchronous outcomes.** Each promise outcome is a separate handler: `OnSaveResolved`, `OnSaveRejected`, `OnDeleteResolved` and `OnDeleteRejected`.
- **List binding.** The model records the sorter currently applied to it, plus counters and a log of the requests issued to it: created rows, `refreshes`, `resetChanges` calls, submitted batches and requested deletions.
- **Message manager.** Its store is a sequence of messages. `ReportMessage` stands for the service adding a technical message to it.
- **Notifications.** Toasts and error boxes are appended to a log as `Notice` kinds. The text itself is not modelled.
- **View teardown.** `DestroyDetailArea` stands for the framework destroying the view. After it, the detail area control no longer exists.

## Model

| member | source | states |
|---|---|---|
| `Controller.AppController.constructor` | webapp/controller/App.controller.js:18-34 | `onInit`: the view starts not busy, with no changes, no empty-name flag, order 0, latch cleared, no detail context and nothing kept alive; `Inv` holds |
| `Controller.AppController.SetUIChanges` | webapp/controller/App.controller.js:209-218 | only `hasUIChanges` changes, and it becomes the value of the change-flag rule `UIChangesValue` |
| `Controller.AppController.SetBusy` | webapp/controller/App.controller.js:220-223 | only `busy` changes, to the given value |
| `Controller.AppController.SetDetailArea` | webapp/controller/App.controller.js:230-257 | without the detail area nothing changes; otherwise keep-alive is released on the old context and then acquired on the new one, the area is bound to the new context and the layout follows it |
| `Controller.AppController.OnCreate` | webapp/controller/App.controller.js:36-56 | one row creation is requested on the list binding, changes are recomputed from the framework's answer and `usernameEmpty` becomes true; nothing else changes |
| `Controller.AppController.OnDelete` | webapp/controller/App.controller.js:58-83 | with a selection: a deletion of that context is requested, the detail area is cleared and `hasUIChanges` is forced true (unless the latch already forces it); without one: nothing changes |
| `Controller.AppController.OnDeleteResolved` | webapp/controller/App.controller.js:67-68 | only a success notice naming the user is added |
| `Controller.AppController.OnDeleteRejected` | webapp/controller/App.controller.js:69-79 | the detail area shows the row again only if it is still selected; changes are recomputed; a "restored" toast is shown when the deletion was canceled, otherwise an error naming the message and the user |
| `Controller.AppController.OnInputChange` | webapp/controller/App.controller.js:85-94 | Escape only recomputes the change flag; an edit forces it true and clears `usernameEmpty` exactly when the edited `UserName` is non-empty |
| `Controller.AppController.OnRefresh` | webapp/controller/App.controller.js:96-105 | with pending changes an error notice is added and no refresh is issued; otherwise exactly one refresh and a success toast |
| `Controller.AppController.OnResetChanges` | webapp/controller/App.controller.js:107-111 | the binding's changes are reset and the latch is cleared, and only then are changes recomputed |
| `Controller.AppController.OnSave` | webapp/controller/App.controller.js:127-143 | `busy` becomes true, one more batch is submitted and the latch is cleared, whether or not the view was already busy |
| `Controller.AppController.OnSaveResolved` | webapp/controller/App.controller.js:128-132 | not busy, a "changes sent" toast, and `hasUIChanges` set from the argument false (so it stays true only if the latch is set again) |
| `Controller.AppController.OnSaveRejected` | webapp/controller/App.controller.js:134-138 | not busy, `hasUIChanges` set from the argument false, and an error notice carrying the batch's message |
| `Controller.AppController.OnSort` | webapp/controller/App.controller.js:155-170 | the order moves one step through the three sort states, the matching sorter is applied and a toast names the new state |
| `Controller.AppController.OnMessageBindingChange` | webapp/controller/App.controller.js:172-197 | with no contexts nothing changes; otherwise the received messages leave the store, changes are forced, the latch is set and the first message is shown as an error |
| `Controller.AppController.OnSelectionChange` | webapp/controller/App.controller.js:199-201 | the selected row's context is handed to the detail area |
| `Controller.AppController.OnKeptContextVanished` | webapp/controller/App.controller.js:245-247 | the callback registered with keep-alive clears the detail area |
| `AppView.UIChangesValue` | webapp/controller/App.controller.js:209-217 | the flag is true iff the latch is set, or true was passed, or nothing was passed and the framework has pending changes; the latch forces true |
| `AppView.NextOrder` | webapp/controller/App.controller.js:160-162 | the next order is always one of the three states, one step after the current one, and wraps to 0 after descending |
| `AppView.SorterFor` | webapp/controller/App.controller.js:157-166 | no sorter in state 0; a sorter on `LastName` otherwise, descending exactly in state 2 |
| `AppView.SwapKeepAlive` | webapp/controller/App.controller.js:240-248 | the new context is kept alive; the old one is released unless it is the new one; no other context changes; from "only the old one" the result is "only the new one" |
| `AppView.WithDetailArea` | webapp/controller/App.controller.js:236-256 | absent area: same state; present: the new context is bound, visible and resizable iff given, layout "60%" vs "100%", search field "40%" vs "20%"; every other field (flags, latch, order, sorter, counters, logs, notices) is untouched |
| `AppView.Without` | webapp/controller/App.controller.js:182-185 | a message stays in the store iff it was there and was not among the received contexts |
| `Traces.InitSatisfiesInv` | webapp/controller/App.controller.js:23-33 | the initial state satisfies the invariant |
| `Traces.StepKeepsInv` | webapp/controller/App.controller.js:36-257 | every handler and outcome keeps the invariant: order below 3 with its sorter applied, latch implies `hasUIChanges`, exactly the detail context kept alive |
| `Traces.RunKeepsInv` | webapp/controller/App.controller.js:36-257 | every sequence of handler calls and outcomes keeps the invariant |
| `Traces.DetailAreaKeepsInv` | webapp/controller/App.controller.js:240-250 | `_setDetailArea` keeps the invariant: after it, exactly the newly bound context is kept alive |
| `Traces.AtMostOneKeptAlive` | webapp/controller/App.controller.js:240-248 | under the invariant, at most one context is kept alive, and it is the detail context |
| `Traces.StepKeepsLatch` | webapp/controller/App.controller.js:209-213 | one event other than save or reset leaves the latch set and `hasUIChanges` true |
| `Traces.LatchHoldsUntilSaveOrReset` | webapp/controller/App.controller.js:209-218 | once the latch is set, it stays set through any sequence without a save or a reset, and `hasUIChanges` stays true, whatever the framework reports |
| `Traces.LatchOverridesEscape` | webapp/controller/App.controller.js:86-87 | under the latch, Escape with no pending changes and a successful batch both leave `hasUIChanges` true |
| `Traces.ResetClearsLatchFirst` | webapp/controller/App.controller.js:107-111 | after a reset the latch is clear and `hasUIChanges` is exactly the framework's answer |
| `Traces.SortCycle` | webapp/controller/App.controller.js:160-166 | `n` sorts move the order to `(order + n) mod 3` and apply that state's sorter, adding `n` notices and changing nothing else |
| `Traces.ThreeSortsRestore` | webapp/controller/App.controller.js:160-166 | from any state satisfying the invariant, three sorts bring back the order and the sorter |
| `Traces.SortsFromInit` | webapp/controller/App.controller.js:155-170 | from the initial state, the `n`-th sort leaves order `n mod 3` |
| `Traces.RefreshGuard` | webapp/controller/App.controller.js:96-105 | with pending changes, the state is unchanged except that exactly one notice, the error `RefreshNotPossible`, is appended; without them, exactly one refresh and exactly a success toast, nothing else changed |
| `Traces.SaveRound` | webapp/controller/App.controller.js:127-143 | save followed by either outcome ends not busy, with no changes shown, latch clear and exactly one batch submitted |
| `Traces.MessageDuringSave` | webapp/controller/App.controller.js:127-143 | a technical message arriving while the batch is in flight keeps `hasUIChanges` and the latch on after the batch succeeds |
| `Traces.SaveWhileBusySubmits` | webapp/controller/App.controller.js:140-141 | `onSave` does not consult `busy`: a save while busy submits a further batch |
| `Traces.MessageFeed` | webapp/controller/App.controller.js:172-197 | no contexts: no change; otherwise latch set, changes shown, received messages removed and the others kept, and exactly one error notice with the first message's text |
| `Traces.SelectionSwap` | webapp/controller/App.controller.js:230-257 | selecting a row keeps exactly that row alive, even when it was already selected; the pane is shown at "60%", resizable, with the search field at "40%" |
| `Traces.NoDetailAreaNoOp` | webapp/controller/App.controller.js:236-238 | without the detail area, selecting or clearing changes nothing |
| `Traces.DetailAreaIdempotent` | webapp/controller/App.controller.js:240-256 | setting the same detail context twice gives the same state as once |
| `Traces.CreateThenName` | webapp/controller/App.controller.js:39-92 | a create requests one row and flags the user name empty; an edit then shows changes and clears the flag iff the name is non-empty |
| `Traces.EscapeOnlyRecomputes` | webapp/controller/App.controller.js:86-87 | Escape changes nothing but `hasUIChanges`, which becomes the rule's value for an omitted argument |
| `Traces.DeleteClearsDetail` | webapp/controller/App.controller.js:64-82 | deleting the selected row requests its deletion, releases and hides the detail area and shows changes; no selection: no change |
| `Traces.DeleteRejectedRestoresDetail` | webapp/controller/App.controller.js:69-79 | delete then rejection of the still-selected row shows it again, kept alive, with exactly one notice: "restored" if canceled, else the error |
| `Traces.DeleteRejectedAlwaysNotifies` | webapp/controller/App.controller.js:69-79 | the rejection handler recomputes changes and adds exactly one notice, an error iff not canceled, whatever is selected |
| `Traces.DeleteRejectedAsWrittenIsSilent` | webapp/controller/App.controller.js:70 | on the reachable trace delete, save, failed batch: as written, a rejection with no selected item leaves "no changes" shown although changes are pending and adds no notice; the corrected handler shows changes and adds one notice |

## Findings

| source | as written | input that shows it | evidently intended | confidence | as-written member | corrected member |
|---|---|---|---|---|---|---|
| webapp/controller/App.controller.js:70 | the rejection callback of `onDelete` calls `getSelectedItem().getBindingContext()` without checking that an item is selected | a deletion rejected while no list item is selected (the restored row is not reselected): `getSelectedItem()` is `null`, the callback throws, and neither `_setUIChanges()` nor the notification runs | a missing selection counts as "not the deleted row"; changes are still recomputed and the user is notified | low (whether the list can have no selection at that moment depends on the framework); not executed | `Traces.DeleteRejectedAsWrittenIsSilent` (on `AppView.AfterDeleteRejectedAsWritten`) | `Controller.AppController.OnDeleteRejected` with `Traces.DeleteRejectedAlwaysNotifies` |

## Behaviour worth noting

Four places where the code does less than a reader might expect:

- **Save while busy.** A second save is not rejected. `onSave` never reads `busy` (lines 140-141); `busy` only drives the view's busy indicator. See `Traces.SaveWhileBusySubmits`.
- **When the latch is cleared.** The latch is cleared when a save starts (line 142), not when the batch succeeds. A technical message that arrives while the batch is in flight therefore survives the batch's success. See `Traces.MessageDuringSave`.
- **The one-dialog guard.** `bMessageOpen` is a local variable, reset to `false` on every call (lines 175-177). It never suppresses a dialog, so every non-empty batch of technical messages shows its first message.
- **`hasUIChanges` after a failed save.** A failed batch sets `hasUIChanges` to false even while changes remain pending in the framework (line 136). So "pending changes exist" and "`hasUIChanges` or the latch" are not equivalent.

## Left out

- `onSearch` (lines 145-153): it only builds a `Contains` filter on `LastName`, which the remote service evaluates, so there is no local logic to model.
- `onResetDataSource` (lines 113-125): it is a thin wrapper that invokes a bound action, and its error branch reads an undefined variable (`oError`, line 122). It is not modelled as working error handling.
- **Framework and service behaviour is not modelled.** This covers `binding.create`, `context.delete`, `submitBatch`, `refresh`, `resetChanges`, `hasPendingChanges`, the message model's filter on `technical` and the restoring of a rejected row.
  - The model records which of these requests the controller issues.
  - The framework's answers are handler parameters.
- The initial layout of the detail area comes from the XML view, which is not part of this model, so it is the constructor's parameter. The list binding is taken to start unsorted, matching order 0.
- Presentation is reduced to a `Notice` kind with its arguments. This covers the toast and error-box text, i18n lookup (`_getText`), and the `MessageBox` options (`id`, `onClose`).
- `onCreate`'s focusing and selecting of the new list item (lines 49-55) is a UI concern and changes no modelled state.
- `UserName` is read as a string, and JavaScript's falsy values for it (`undefined`, `null`) count as the empty string.
- **Asynchronous ordering.** The model does not connect an outcome to the request it answers. The ordering of promise callbacks is the environment's: any handler or outcome may follow any other.
