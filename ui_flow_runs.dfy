/**
 * Sequences of dispatched actions. The Redux store feeds every dispatched
 * action through the reducer in order; `Run` is that fold, and the lemmas
 * here state what holds of every state the pane can reach.
 */
module UiFlowRuns {
  import opened Wrappers
  import opened UiFlow

  /** The state after dispatching `actions` in order, starting from `s`. */
  function Run(merge: Merger, s: UiFlowState, actions: seq<Action>): UiFlowState
    decreases |actions|
  {
    if actions == [] then s else Run(merge, Reduce(merge, s, actions[0]), actions[1..])
  }

  /**
   * Reference definition of a field that only one kind of action writes:
   * the value written by the last action for which `write` gives one, or
   * `init` when no action writes it.
   */
  function Latest<T>(init: T, actions: seq<Action>, write: Action -> Option<T>): T
    decreases |actions|
  {
    if actions == [] then init else Latest(write(actions[0]).GetOr(init), actions[1..], write)
  }

  function ContentWrite(a: Action): Option<Content> {
    if a.SetContent? then Some(a.content) else None
  }

  function TabWrite(a: Action): Option<string> {
    if a.SetTab? then Some(TabOrDefault(a.tab)) else None
  }

  function DescriptionWrite(a: Action): Option<string> {
    if a.SetContentViewDescription? then Some(a.description) else None
  }

  /** No action changes the line limit. */
  lemma {:induction false} RunKeepsMaxContentLines(merge: Merger, s: UiFlowState, actions: seq<Action>)
    ensures Run(merge, s, actions).maxContentLines == s.maxContentLines
    decreases |actions|
  {
    if actions != [] {
      RunKeepsMaxContentLines(merge, Reduce(merge, s, actions[0]), actions[1..]);
    }
  }

  /** Every reachable state has the default limit of 80 content lines. */
  lemma ReachableMaxContentLines(merge: Merger, actions: seq<Action>)
    ensures Run(merge, Default(), actions).maxContentLines == 80
  {
    RunKeepsMaxContentLines(merge, Default(), actions);
  }

  /** The content shown is the one set by the last SET_CONTENT. */
  lemma {:induction false} RunContent(merge: Merger, s: UiFlowState, actions: seq<Action>)
    ensures Run(merge, s, actions).content == Latest(s.content, actions, ContentWrite)
    decreases |actions|
  {
    if actions != [] {
      var next := Reduce(merge, s, actions[0]);
      assert next.content == ContentWrite(actions[0]).GetOr(s.content);
      RunContent(merge, next, actions[1..]);
    }
  }

  /** The tab shown is the one selected by the last SET_TAB. */
  lemma {:induction false} RunTab(merge: Merger, s: UiFlowState, actions: seq<Action>)
    ensures Run(merge, s, actions).tab == Latest(s.tab, actions, TabWrite)
    decreases |actions|
  {
    if actions != [] {
      var next := Reduce(merge, s, actions[0]);
      assert next.tab == TabWrite(actions[0]).GetOr(s.tab);
      RunTab(merge, next, actions[1..]);
    }
  }

  /** The view description is the one set by the last SET_CONTENT_VIEW_DESCRIPTION. */
  lemma {:induction false} RunViewDescription(merge: Merger, s: UiFlowState, actions: seq<Action>)
    ensures Run(merge, s, actions).viewDescription == Latest(s.viewDescription, actions, DescriptionWrite)
    decreases |actions|
  {
    if actions != [] {
      var next := Reduce(merge, s, actions[0]);
      assert next.viewDescription == DescriptionWrite(actions[0]).GetOr(s.viewDescription);
      RunViewDescription(merge, next, actions[1..]);
    }
  }

  /** No reachable state has an empty tab name: SET_TAB falls back to "request". */
  lemma {:induction false} RunTabNeverEmpty(merge: Merger, s: UiFlowState, actions: seq<Action>)
    requires s.tab != ""
    ensures Run(merge, s, actions).tab != ""
    decreases |actions|
  {
    if actions != [] {
      RunTabNeverEmpty(merge, Reduce(merge, s, actions[0]), actions[1..]);
    }
  }

  /** Edit mode is entered only by START_EDIT or UPDATE_EDIT. */
  lemma {:induction false} NoEditWithoutStart(merge: Merger, s: UiFlowState, actions: seq<Action>)
    requires !InEditMode(s)
    requires forall i :: 0 <= i < |actions| ==> !actions[i].StartEdit? && !actions[i].UpdateEdit?
    ensures !InEditMode(Run(merge, s, actions))
    decreases |actions|
  {
    if actions != [] {
      NoEditWithoutStart(merge, Reduce(merge, s, actions[0]), actions[1..]);
    }
  }

  /**
   * While the flow with identifier `id` is being edited, the pane stays in
   * edit mode on that flow as long as no action aborts the edit, selects a
   * flow, starts another edit or delivers the server's update of that flow,
   * provided the merge of an UPDATE_EDIT keeps the identifier.
   */
  lemma {:induction false} EditPersists(merge: Merger, s: UiFlowState, id: string, actions: seq<Action>)
    requires IsEditing(s, id)
    requires forall f: Flow, p: FlowPatch :: f.id == id ==> merge(Some(f), p).id == id
    requires forall i :: 0 <= i < |actions| ==>
      && !actions[i].AbortEdit? && !actions[i].Select? && !actions[i].StartEdit?
      && !(actions[i].Update? && actions[i].data.id == id)
    ensures IsEditing(Run(merge, s, actions), id)
    decreases |actions|
  {
    if actions != [] {
      EditPersists(merge, Reduce(merge, s, actions[0]), id, actions[1..]);
    }
  }
}
