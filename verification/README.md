# OpenFin workspace restore: a Dafny model

This project models the restore-reconciliation core of the OpenFin
platform adapter in the Reactive Trader Cloud desktop client. When the
workspace service hands the adapter a saved workspace, the restore handler
reads the application's live child windows once. It then starts one
pipeline per saved child window:

- a **launch** when no live window carries the saved window's `name`: open
  a window with the saved name, url and size at the saved initial position, whose
  on-open callback shows the window's container in the layout store; then,
  once the open has been awaited, hide the container's embedded placeholder;
- a **reposition** when the window is live: wrap the whole saved
  descriptor into a handle, set its bounds, then either show it (tabbed window) or leave its
  group and hide it or bring it to its saved state. Every step is awaited
  in one `try` block whose `catch` logs and swallows any error.

The handler joins all pipelines and answers with the saved workspace.
Separately, the window-chrome maximize button restores-and-fronts a
maximized or minimized window and maximizes any other.

Everything observable is an ordered list of calls. The model therefore
consists of pure planners that return traces:

- `WindowModel` (`window_model.dfy`): descriptors, workspaces, live
  identities, window calls (`Action`), pipeline steps (`Step`), and the
  state strings (`StateOf`). It also gives each window call an abstract
  effect on a `WindowView`, made of bounds, grouping, visibility and state.
  This is what lets the model state what a reconciliation achieves.
- `Effects` (`effects.dfy`): sequential awaiting of a step list under a
  `Fault`, the platform behaviour. `Fault` is either no failure or a
  rejection at one step index. The module has the functional `Settle`, the
  looping driver `Drive` and the `Catch` that swallows a rejection.
- `StateMachine` (`state_machine.dfy`): the reposition plan and the
  maximize toggle.
- `Reconciler` (`reconciler.dfy`): `positionWindow` as wrap plus plan
  inside a catch.
- `Launcher` (`launcher.dfy`): the launch branch, which has no catch.
- `Restore` (`restore.dfy`): the name-membership test, the missing/present
  split, the fan-out, and the join.

Three places where one might expect different behaviour, and what the
code does (the model follows the code):

- One might expect a restore never to reject, since one window's failure
  should not block the others. In the code only the reposition branch has
  a `catch` (openFin.ts:172, 198-200). A rejecting `openDesktopWindow`, or
  a throwing store dispatch on the launch branch, rejects the joined
  `Promise.all` (openFin.ts:141-160, 166). So does a rejecting read of the
  live windows (openFin.ts:130-131). `AppRestore` therefore answers
  `RejectedByRead` exactly when the read fails, and `RejectedByLaunch`
  exactly when the read succeeds and some launch step fails.
- One might expect the placeholder's `display: false` update to be
  dispatched without waiting for the open. The code awaits
  `openDesktopWindow` first (openFin.ts:141-160). The update is issued only
  after the open step has fulfilled, and never when it rejects.
- One might expect the saved state always to be one of three values. The
  code compares the saved string against `normal`, `minimized` and
  `maximized` (openFin.ts:186-194). A showing, untabbed window whose state
  is any other string gets no call after `leaveGroup`; a window that is not
  showing gets `hide` whatever its state (openFin.ts:195-196). The other
  string is kept as `Other(raw)`.

## Model

| member | source | states |
|---|---|---|
| WindowModel.StateOf | src/client/src/rt-components/platform/adapters/openfin/openFin.ts:186-194 | a state string is read as one of the three recognised states exactly when it equals one of the literals; any other string is kept verbatim as `Other`, and naming the result gives the string back |
| WindowModel.StateNameRoundTrip | src/client/src/rt-components/platform/adapters/openfin/openFin.ts:51-57 | the converse round trip: naming a well-formed state and reading the name back gives the same state |
| Effects.Settle | src/client/src/rt-components/platform/adapters/openfin/openFin.ts:172-197 | awaiting steps one by one issues a prefix of them; the run rejects exactly when the failing index is inside the list, and then exactly the steps up to and including that one were issued; without a failure every step is issued |
| Effects.Catch | src/client/src/rt-components/platform/adapters/openfin/openFin.ts:198-200 | the catch keeps the issued steps, always resolves, and turns a rejection at a step into a recovery at that same step |
| Effects.FailureLeavesStrictPrefix | src/client/src/rt-components/platform/adapters/openfin/openFin.ts:172-200 | when a step fails, with or without a catch, the completed steps are exactly those before it, a strict prefix of the plan |
| Effects.Drive | src/client/src/rt-components/platform/adapters/openfin/openFin.ts:172-197 | the imperative driver that issues and awaits each step in turn and stops at the first rejection settles exactly as `Settle` describes |
| StateMachine.RepositionPlan | src/client/src/rt-components/platform/adapters/openfin/openFin.ts:176-196 | the plan has two to four calls, always begins with `setBounds` to the saved bounds, and its second call is `show` for a tabbed window and `leaveGroup` otherwise |
| StateMachine.TabbedPlan | src/client/src/rt-components/platform/adapters/openfin/openFin.ts:176-181 | a tabbed window's plan is exactly `setBounds`, `show`: no `leaveGroup`, `hide`, `restore`, `minimize` or `maximize` |
| StateMachine.HiddenPlan | src/client/src/rt-components/platform/adapters/openfin/openFin.ts:183-196 | an untabbed window that is not showing gets `setBounds`, `leaveGroup`, `hide` whatever its saved state, and never `restore`, `minimize` or `maximize` |
| StateMachine.ShowingPlan | src/client/src/rt-components/platform/adapters/openfin/openFin.ts:183-194 | an untabbed showing window gets `setBounds`, `leaveGroup`, then `restore` followed by `show` for `normal`, `minimize` for `minimized`, `maximize` for `maximized`, and nothing more for any other state |
| StateMachine.PlanMembership | src/client/src/rt-components/platform/adapters/openfin/openFin.ts:176-197 | in both directions, each call occurs in the plan exactly for the descriptors that should produce it (`leaveGroup` iff untabbed, `hide` iff untabbed and not showing, `restore`/`minimize`/`maximize` iff untabbed, showing and in that state, `show` iff tabbed or showing normal), and `bringToFront` never occurs |
| StateMachine.PlanReachesReconciled | src/client/src/rt-components/platform/adapters/openfin/openFin.ts:176-197 | executing the plan on any window yields the reconciled window defined directly from the descriptor, independently of the call order |
| StateMachine.ReconcileConforms | src/client/src/rt-components/platform/adapters/openfin/openFin.ts:176-197 | after the plan the window has the saved bounds; a tabbed window is shown and keeps its grouping and state; an untabbed one is ungrouped, hidden with its state untouched when not showing, in the saved state when showing with a recognised state, and visible when showing normal |
| StateMachine.ReconcileFixedPoint | src/client/src/rt-components/platform/adapters/openfin/openFin.ts:176-197 | reconciliation changes a window exactly when it does not already conform to its descriptor, where conforming is stated from the descriptor's fields alone: an already-correct window sees no change, and every run of the plan leaves a conforming window |
| StateMachine.ToggleMaximize | src/client/src/rt-components/platform/adapters/openfin/openFin.ts:50-61 | the calls one press plans, all of which are issued when nothing fails: either `maximize` alone or `restore` followed by `bringToFront` |
| StateMachine.PressMaximize | src/client/src/rt-components/platform/adapters/openfin/openFin.ts:48-62 | a press whose `getState` query fails makes no call at all; otherwise it issues a prefix of the toggle's calls, at least the first; `bringToFront` is issued exactly when the query succeeded, the live state is `maximized` or `minimized`, and `restore` did not fail, since it runs only in `restore`'s success callback |
| StateMachine.ToggleDecision | src/client/src/rt-components/platform/adapters/openfin/openFin.ts:51-59 | in both directions: `restore` then `bringToFront` exactly for a `maximized` or `minimized` live state, `maximize` alone for `normal` and every unrecognised value |
| StateMachine.ToggleEffect | src/client/src/rt-components/platform/adapters/openfin/openFin.ts:48-62 | one press leaves a maximized or minimized window normal and any other window maximized, changing nothing but the state |
| StateMachine.ToggleTwice | src/client/src/rt-components/platform/adapters/openfin/openFin.ts:48-62 | two presses return a normal or maximized window to exactly where it was |
| Reconciler.PositionSteps | src/client/src/rt-components/platform/adapters/openfin/openFin.ts:175-196 | a reposition first wraps the whole saved descriptor into a handle, then issues the plan's calls in order and nothing else |
| Reconciler.PositionWindow | src/client/src/rt-components/platform/adapters/openfin/openFin.ts:170-201 | a reposition always resolves; it issues a prefix of its steps, and fulfils, having issued all of them, exactly when no step fails |
| Reconciler.PositionWindowDriver | src/client/src/rt-components/platform/adapters/openfin/openFin.ts:170-201 | the driver that awaits each step and catches any failure settles exactly as `PositionWindow` describes |
| Reconciler.PositionFailureIsPrefix | src/client/src/rt-components/platform/adapters/openfin/openFin.ts:172-200 | if any step fails, `wrap` included, the failure is swallowed at that step; the completed steps are the strict prefix before it, which is nothing when `wrap` fails and otherwise the wrap plus the calls of the plan that precede the failing one |
| Reconciler.TabbedPositionSteps | src/client/src/rt-components/platform/adapters/openfin/openFin.ts:175-181 | a tabbed window's reposition is exactly wrap, `setBounds`, `show` |
| Launcher.LaunchPlacementRoundTrip | src/client/src/rt-components/platform/adapters/openfin/openFin.ts:135-151 | the launched window is configured with the saved name and url, and its configured size and the initial position handed to the opener together give back exactly the saved bounds |
| Launcher.LaunchSteps | src/client/src/rt-components/platform/adapters/openfin/openFin.ts:141-160 | a launch is the open step, which registers the `display: true` update for the window's name as its on-open callback, followed by the `display: false` dispatch for the same name |
| Launcher.Launch | src/client/src/rt-components/platform/adapters/openfin/openFin.ts:141-160 | a launch issues a prefix of its steps and rejects exactly when the open or the dispatch fails, since nothing catches here |
| Launcher.LaunchDispatchOrder | src/client/src/rt-components/platform/adapters/openfin/openFin.ts:141-160 | the open is always issued first; the launch itself never dispatches a `display: true` update; the `display: false` update is issued exactly when the open has fulfilled |
| Launcher.OpenFailureRejectsLaunch | src/client/src/rt-components/platform/adapters/openfin/openFin.ts:141-152 | a rejecting open rejects the launch after issuing only the open, so the placeholder is never hidden |
| Restore.IsLive | src/client/src/rt-components/platform/adapters/openfin/openFin.ts:134 | the name test holds exactly when some live window's identity has the descriptor's name |
| Restore.Missing | src/client/src/rt-components/platform/adapters/openfin/openFin.ts:133-134 | the missing part holds exactly the saved descriptors whose name is not live, and is no longer than the snapshot |
| Restore.Present | src/client/src/rt-components/platform/adapters/openfin/openFin.ts:133-163 | the present part holds exactly the saved descriptors whose name is live, and is no longer than the snapshot |
| Restore.PartitionIsPermutation | src/client/src/rt-components/platform/adapters/openfin/openFin.ts:133-164 | the missing and present parts together are a permutation of the snapshot's child windows: nothing lost, nothing duplicated |
| Restore.RunAll | src/client/src/rt-components/platform/adapters/openfin/openFin.ts:133-164 | there is one pipeline per saved window in snapshot order, and the i-th is that window's launch or reposition under its own fault |
| Restore.FanOut | src/client/src/rt-components/platform/adapters/openfin/openFin.ts:133-167 | once the live windows are read there is one pipeline per saved window; the join never rejects by the read; when it resolves its value is the saved workspace; it rejects exactly when some missing window's launch fails |
| Restore.AppRestore | src/client/src/rt-components/platform/adapters/openfin/openFin.ts:129-168 | a failing read of the live windows rejects the restore before any pipeline starts; otherwise the restore is the fan-out over the live windows read; when it resolves, its value is the saved workspace itself; it rejects by a launch exactly when the read succeeded and some missing window's launch fails |
| Restore.PipelineBranch | src/client/src/rt-components/platform/adapters/openfin/openFin.ts:134-163 | a window's pipeline begins with an open exactly when it is not live, and with a wrap exactly when it is; it contains no step of the other branch |
| Restore.ExactlyOneBranch | src/client/src/rt-components/platform/adapters/openfin/openFin.ts:133-164 | once the live windows are read, every saved window takes exactly one branch: it is launched iff it is in the missing part and repositioned iff it is in the present part |
| Restore.LaunchesMatchMissing | src/client/src/rt-components/platform/adapters/openfin/openFin.ts:133-164 | whatever the faults, the number of launches equals the number of missing descriptors |
| Restore.AllLiveAlwaysResolves | src/client/src/rt-components/platform/adapters/openfin/openFin.ts:130-167 | when every saved window is live, only repositions run: the restore rejects only if reading the live windows fails, and otherwise resolves with the saved workspace whatever the windows do |
| Restore.FaultFreeRestore | src/client/src/rt-components/platform/adapters/openfin/openFin.ts:133-167 | without failures the restore resolves with the saved workspace, and each pipeline issues its whole launch or reposition |
| Restore.TwoWindowScenario | src/client/src/rt-components/platform/adapters/openfin/openFin.ts:129-168 | a tabbed live window "A" and a missing window "B": "A" gets wrap, `setBounds`, `show`, "B" gets the full launch, exactly one launch happens, and the restore resolves with the workspace |

## Left out

- `setupWorkspaces` and `setupGlobalOpenfinNotifications` (openFin.ts:9-28) are left out. They are runtime-presence checks, a `require`, and a global callback pushing into a module array: host plumbing with no decision logic.
- `app.open` (openFin.ts:69-94) is left out. It is callback-driven application launch with a timer and a running-application lookup through the host API.
- `interop`, `excel`, `notification`, `chartIQ`, `notificationHighlight`, `app.exit`, and `window.close/open/minimize` (openFin.ts:35-46, 64, 68, 97-126) are left out. Each is a one-line pass-through to a host or adapter API.
- `openDesktopWindow` lives in `window.ts`, which is not part of this model. So is the layout store with its `updateContainerVisibilityAction`. The open is modelled as one awaited step that registers its on-open callback.
- Launch: when the opener's on-open callback fires, relative to the opener's promise resolving, is decided inside `window.ts`. The model does not order the `display: true` update against the `display: false` one. It only states that the launch itself never issues the `display: true` update and that the `display: false` update follows a fulfilled open.
- AppRestore: every host call is assumed to fulfil or reject; a call that never settles, which would leave its pipeline and the joined `Promise.all` pending, is not modelled, so "resolves" in these contracts is conditional on every call settling. The read of the live windows is modelled only by whether it fails; what the host answers is the parameter `live`. Interleaving across windows is not modelled. This covers the concurrent `map` of async closures and the moment `Promise.all` rejects. Each pipeline is modelled on its own, and the join only by its outcome. The live-window list is read once, so a window opening or closing during the restore is not seen; that race is accepted and not modelled.
- ToggleMaximize: the host's `getState` query is modelled as whether it fails plus its answer, a string parameter. The code registers no error callbacks: a failing query makes no call, and a failing `restore` silently skips `bringToFront`; `PressMaximize` states both.
- ReconcileConforms: the effect of each window call on a window (`WindowView`, `Apply`) is an abstraction of the host's window manager. The host's behaviour is not part of the source. The model does not claim, for example, that `maximize` also shows a hidden window.
- Logging (`console.error`, openFin.ts:171 and 199) is left out. The catch is modelled only as swallowing the error.
- Descriptor fields are typed. The source reads untyped objects, where `isShowing` and `isTabbed` are truthiness tests; they are modelled as booleans. Malformed snapshots are not modelled.
- Screen coordinates are JavaScript numbers and are modelled as unbounded integers. No arithmetic is done on them.
