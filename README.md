# mitmweb flow-detail pane: reducer model

This project models the state of mitmweb's flow-detail pane
(`web/src/js/ducks/ui/flow.ts`): the record `UiFlowState` with its default
value, the actions dispatched to the pane, the Redux reducer that computes
the next state from a state and an action, and `stopEdit`, which decides
whether finishing an edit sends an update to the server or merely aborts.

- `wrappers.dfy` (module `Wrappers`): `Option`, used for JavaScript's
  optional fields.
- `ui_flow.dfy` (module `UiFlow`): the state, `Default()`, the `Action`
  datatype (one constructor per action type, carrying what its action
  creator puts in the action object), the reducer `Reduce`, `Reducer`
  (which substitutes the default state when Redux passes none),
  `StopEdit`, and one lemma per action stating exactly which fields it
  sets and that every other field is unchanged.
- `ui_flow_runs.dfy` (module `UiFlowRuns`): `Run`, the state after a
  sequence of dispatched actions, and lemmas about every state the pane can
  reach: the line limit never changes, `content`, `tab` and
  `viewDescription` each hold the value written by their last setter, the
  tab name is never empty, and edit mode begins and ends only where the
  reducer says.

Edit mode means "`modifiedFlow` is present". START_EDIT and UPDATE_EDIT put
a flow there; ABORT_EDIT, SELECT and the server's UPDATE of the edited flow
remove it. Only SELECT and UPDATE reset `contentView` to `"Auto"`, and only
when the pane was in edit mode; ABORT_EDIT leaves `contentView` as it was.

## Model

| member | source | states |
|---|---|---|
| `UiFlow.Reduce` | web/src/js/ducks/ui/flow.ts:41-136 | No action changes `maxContentLines`; an unrecognised action returns the state unchanged; the next state is in edit mode exactly when the action is START_EDIT or UPDATE_EDIT, or the state was in edit mode and the action is not ABORT_EDIT, SELECT or the UPDATE of the edited flow; `contentView` changes only through START_EDIT, SET_CONTENT_VIEW, or a reset to `"Auto"` when edit mode is left; `content`, `tab` and `viewDescription` change only through their own setter |
| `UiFlow.Reducer` | web/src/js/ducks/ui/flow.ts:30-41 | With no state the reducer applies the action to the default state, whatever the action; in particular an unrecognised action (Redux's start-up action) yields the default state; with a state it is `Reduce` |
| `UiFlow.TabOrDefault` | web/src/js/ducks/ui/flow.ts:109 | The selected tab is never empty; a non-empty given tab is used as is, and a missing or empty one gives `"request"` |
| `UiFlow.StartEditEntersEditMode` | web/src/js/ducks/ui/flow.ts:49-55 | START_EDIT holds the given flow as `modifiedFlow`, sets `contentView` to `"Edit"` and `showFullContent` to true, and changes nothing else |
| `UiFlow.UpdateEditChangesOnlyModifiedFlow` | web/src/js/ducks/ui/flow.ts:57-61 | UPDATE_EDIT sets `modifiedFlow` to the merge of the held flow (if any) and the update, so the pane is in edit mode afterwards even if it was not before; nothing else changes |
| `UiFlow.AbortEditLeavesEditMode` | web/src/js/ducks/ui/flow.ts:63-67 | ABORT_EDIT clears `modifiedFlow` and changes nothing else, `contentView` included |
| `UiFlow.SelectLeavesEditMode` | web/src/js/ducks/ui/flow.ts:42-76 | SELECT clears `modifiedFlow` and `displayLarge`; `contentView` becomes `"Auto"` if the pane was in edit mode and is kept otherwise; `showFullContent` holds exactly when the action's content, or else the state's, has at most `maxContentLines` lines; nothing else changes |
| `UiFlow.UpdateOfEditedFlowEndsEdit` | web/src/js/ducks/ui/flow.ts:78-89 | An UPDATE whose flow id is the edited flow's id leaves edit mode with `displayLarge` false, `contentView` `"Auto"` and `showFullContent` false, and changes nothing else |
| `UiFlow.UpdateOfOtherFlowIsNoOp` | web/src/js/ducks/ui/flow.ts:82-92 | Any other UPDATE (another flow's id, or no flow being edited) returns the state unchanged |
| `UiFlow.SetTabEffect` | web/src/js/ducks/ui/flow.ts:106-112 | SET_TAB selects the given tab, or `"request"` when none or an empty one is given, clears `displayLarge`, sets `showFullContent` exactly when `contentView` is `"Edit"`, and changes nothing else |
| `UiFlow.SetContentViewEffect` | web/src/js/ducks/ui/flow.ts:114-119 | SET_CONTENT_VIEW sets `contentView` and makes `showFullContent` true exactly when the new view is `"Edit"`; nothing else changes |
| `UiFlow.SetContentEffect` | web/src/js/ducks/ui/flow.ts:121-126 | SET_CONTENT replaces `content` and sets `showFullContent` exactly when the new content has at most `maxContentLines` lines; nothing else changes |
| `UiFlow.SetContentViewDescriptionEffect` | web/src/js/ducks/ui/flow.ts:94-98 | SET_CONTENT_VIEW_DESCRIPTION sets `viewDescription` and nothing else |
| `UiFlow.SetShowFullContentEffect` | web/src/js/ducks/ui/flow.ts:100-104 | SET_SHOW_FULL_CONTENT sets `showFullContent` to true and nothing else |
| `UiFlow.DisplayLargeEffect` | web/src/js/ducks/ui/flow.ts:128-132 | DISPLAY_LARGE sets `displayLarge` to true and nothing else |
| `UiFlow.RepeatedActionIsIdempotent` | web/src/js/ducks/ui/flow.ts:41-136 | Dispatching any action other than UPDATE_EDIT a second time gives a state equal in value to the first result (object identity is not modelled) |
| `UiFlow.AnyDefined` | web/src/js/ducks/ui/flow.ts:173 | The scan of the diff's values is true exactly when some value is defined |
| `UiFlow.StopEdit` | web/src/js/ducks/ui/flow.ts:171-178 | Finishing an edit yields ABORT_EDIT exactly when every value of the diff is undefined, and otherwise the update of the original flow with that diff |
| `UiFlowRuns.RunKeepsMaxContentLines` | web/src/js/ducks/ui/flow.ts:41-136 | No sequence of actions changes `maxContentLines` |
| `UiFlowRuns.ReachableMaxContentLines` | web/src/js/ducks/ui/flow.ts:30-39 | Every state reached from the default state has `maxContentLines` 80 |
| `UiFlowRuns.RunContent` | web/src/js/ducks/ui/flow.ts:121-126 | After any sequence of actions, `content` is the content of the last SET_CONTENT, or the initial content if there was none |
| `UiFlowRuns.RunTab` | web/src/js/ducks/ui/flow.ts:106-112 | After any sequence of actions, `tab` is the tab chosen by the last SET_TAB, or the initial tab if there was none |
| `UiFlowRuns.RunViewDescription` | web/src/js/ducks/ui/flow.ts:94-98 | After any sequence of actions, `viewDescription` is the one set by the last SET_CONTENT_VIEW_DESCRIPTION, or the initial one |
| `UiFlowRuns.RunTabNeverEmpty` | web/src/js/ducks/ui/flow.ts:109 | Starting from a non-empty tab (the default `"request"` is one), the tab name never becomes empty |
| `UiFlowRuns.NoEditWithoutStart` | web/src/js/ducks/ui/flow.ts:49-67 | Outside edit mode, a sequence of actions without START_EDIT or UPDATE_EDIT never enters edit mode |
| `UiFlowRuns.EditPersists` | web/src/js/ducks/ui/flow.ts:57-92 | While a flow is edited, actions other than ABORT_EDIT, SELECT, START_EDIT and the server's UPDATE of that flow keep it in edit mode on a flow with the same id, given a merge that keeps the id |

## Left out

- `_.merge` (flow.ts:60) is a library call: `Reduce` takes it as the `merge` parameter, and only the frame of UPDATE_EDIT is stated, not the deep-merge result.
- `getDiff` and `flowsActions.update` (flow.ts:172-174) are calls into other modules: `StopEdit` receives the diff as its entries in order, and the update is the opaque value `FlowUpdate(flow, diff)`.
- The action creators (flow.ts:139-169) only build action objects; in the model they are the constructors of `Action` (`setContentView(v)` is `SetContentView(v)`, `selectTab(t)` is `SetTab(t)`, and so on), so they have no separate functions.
- The action-type string constants (flow.ts:7-16) are tags: `Action` has a constructor per handled type, and `Unrecognised` stands for every type the reducer has no case for, including UI_FLOWVIEW_UPLOAD_CONTENT, which the reducer does not handle.
- Actions with a missing payload (`startEdit()` or `setContent()` without an argument, an UPDATE without `data`) are not modelled: each constructor carries its payload. Only SET_TAB's optional tab and SELECT's optional content are optional.
- A flow always has an `id` in the model. A merge of an update into no flow could give an object without one in JavaScript; that object would then never match a server UPDATE, which the model cannot express.
- Object identity is not modelled: states are values and `==` is structural equality. The source returns the same `state` object for a no-op (flow.ts:91, 134) and a fresh object for every other action, which Redux subscribers see as a change even when every field is equal; `RepeatedActionIsIdempotent` speaks of equal values only.
- The styles and texts inside `content` are carried but not interpreted; only the number of lines matters to the reducer.
- Redux's store, React rendering and the flows store that issues SELECT and UPDATE are not part of this model; `Run` stands for dispatching a sequence of actions.
- `examples/addons/contentview-custom-grpc2.py` is a static table of gRPC field names plus plugin registration hooks; it is not part of this model, and the gRPC decoder it configures is not part of this model either.
