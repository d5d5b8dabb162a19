/**
 * The flow-detail pane of the mitmweb user interface: its state, the actions
 * dispatched to it, and the Redux reducer that maps (state, action) to the
 * next state (web/src/js/ducks/ui/flow.ts). Every transition is a pure
 * function; "nothing else changes" frames are stated as record updates of
 * the old state.
 */
module UiFlow {
  import opened Wrappers

  /** One line of rendered content: a sequence of (style, text) fragments. */
  type ContentLine = seq<(string, string)>
  type Content = seq<ContentLine>

  /**
   * A flow as the user interface sees it. Only `id` matters to this pane;
   * the rest of the flow is carried as opaque attributes.
   */
  datatype Flow = Flow(id: string, attributes: map<string, string>)

  /** A partial flow sent by the editor (the `update` of UPDATE_EDIT). */
  type FlowPatch = map<string, string>

  /**
   * The deep merge `_.merge({}, modifiedFlow, update)`: a library call whose
   * semantics are not modelled, so the reducer receives it as a parameter.
   */
  type Merger = (Option<Flow>, FlowPatch) -> Flow

  datatype UiFlowState = UiFlowState(
    displayLarge: bool,
    viewDescription: string,
    showFullContent: bool,
    modifiedFlow: Option<Flow>,
    contentView: string,
    tab: string,
    content: Content,
    maxContentLines: int
  )

  const DefaultMaxContentLines: int := 80

  function Default(): UiFlowState {
    UiFlowState(
      displayLarge := false,
      viewDescription := "",
      showFullContent := false,
      modifiedFlow := None,
      contentView := "Auto",
      tab := "request",
      content := [],
      maxContentLines := DefaultMaxContentLines
    )
  }

  /**
   * The actions the reducer handles, one constructor per action type, with
   * the payload its action creator puts in. `Select` and `Update` come from
   * the flows store (SELECT and UPDATE there); `Unrecognised` stands for
   * every action type the reducer has no case for, UI_FLOWVIEW_UPLOAD_CONTENT
   * included.
   */
  datatype Action =
    | SetContentView(contentView: string)
    | DisplayLarge
    | SetTab(tab: Option<string>)
    | StartEdit(flow: Flow)
    | UpdateEdit(update: FlowPatch)
    | AbortEdit
    | SetShowFullContent
    | SetContentViewDescription(description: string)
    | SetContent(content: Content)
    | Select(selectedContent: Option<Content>)
    | Update(data: Flow)
    | Unrecognised

  /** Edit mode is "a modified copy of a flow is held". */
  predicate InEditMode(s: UiFlowState) {
    s.modifiedFlow.Some?
  }

  /** True when the flow being edited has identifier `id`. */
  predicate IsEditing(s: UiFlowState, id: string) {
    s.modifiedFlow.Some? && s.modifiedFlow.value.id == id
  }

  /** The `content` field an action carries, if any. */
  function ActionContent(a: Action): Option<Content> {
    match a
    case SetContent(c) => Some(c)
    case Select(c) => c
    case _ => None
  }

  /** `action.content || state.content`: content arrays are truthy even when empty. */
  function EffectiveContent(s: UiFlowState, a: Action): Content {
    ActionContent(a).GetOr(s.content)
  }

  /** The tab SET_TAB selects: a missing or empty tab name falls back to "request". */
  function TabOrDefault(tab: Option<string>): (t: string)
    ensures t != ""
    ensures tab.Some? && tab.value != "" ==> t == tab.value
    ensures tab.None? || tab.value == "" ==> t == "request"
  {
    if tab.Some? && tab.value != "" then tab.value else "request"
  }

  /** The reducer: the state after dispatching `a` in state `s`. */
  function Reduce(merge: Merger, s: UiFlowState, a: Action): (r: UiFlowState)
    ensures r.maxContentLines == s.maxContentLines
    ensures a.Unrecognised? ==> r == s
    ensures InEditMode(r) <==>
      || a.StartEdit?
      || a.UpdateEdit?
      || (InEditMode(s) && !a.AbortEdit? && !a.Select? && !(a.Update? && IsEditing(s, a.data.id)))
    ensures r.contentView != s.contentView ==>
      || a.StartEdit?
      || a.SetContentView?
      || (InEditMode(s) && !InEditMode(r) && r.contentView == "Auto")
    ensures r.content != s.content ==> a.SetContent?
    ensures r.tab != s.tab ==> a.SetTab?
    ensures r.viewDescription != s.viewDescription ==> a.SetContentViewDescription?
  {
    var wasInEditMode := InEditMode(s);
    var isFullContentShown := |EffectiveContent(s, a)| <= s.maxContentLines;
    match a
    case StartEdit(f) =>
      s.(modifiedFlow := Some(f), contentView := "Edit", showFullContent := true)
    case UpdateEdit(update) =>
      s.(modifiedFlow := Some(merge(s.modifiedFlow, update)))
    case AbortEdit =>
      s.(modifiedFlow := None)
    case Select(_) =>
      s.(modifiedFlow := None,
         displayLarge := false,
         contentView := if wasInEditMode then "Auto" else s.contentView,
         showFullContent := isFullContentShown)
    case Update(data) =>
      // The server's update of the edited flow is what ends an edit.
      if IsEditing(s, data.id) then
        s.(modifiedFlow := None,
           displayLarge := false,
           contentView := if wasInEditMode then "Auto" else s.contentView,
           showFullContent := false)
      else
        s
    case SetContentViewDescription(description) =>
      s.(viewDescription := description)
    case SetShowFullContent =>
      s.(showFullContent := true)
    case SetTab(tab) =>
      s.(tab := TabOrDefault(tab), displayLarge := false, showFullContent := s.contentView == "Edit")
    case SetContentView(view) =>
      s.(contentView := view, showFullContent := view == "Edit")
    case SetContent(content) =>
      s.(content := content, showFullContent := isFullContentShown)
    case DisplayLarge =>
      s.(displayLarge := true)
    case Unrecognised =>
      s
  }

  /** Redux calls the reducer with no state at start-up; it then uses the default state. */
  function Reducer(merge: Merger, s: Option<UiFlowState>, a: Action): (r: UiFlowState)
    ensures s.None? ==> r == Reduce(merge, Default(), a)
    ensures s.None? && a.Unrecognised? ==> r == Default()
    ensures s.Some? ==> r == Reduce(merge, s.value, a)
  {
    Reduce(merge, s.GetOr(Default()), a)
  }

  // ---------------------------------------------------------------------
  // Per-action effects
  // ---------------------------------------------------------------------

  lemma StartEditEntersEditMode(merge: Merger, s: UiFlowState, f: Flow)
    ensures var r := Reduce(merge, s, StartEdit(f));
      && r.modifiedFlow == Some(f)
      && r.contentView == "Edit"
      && r.showFullContent
      && r == s.(modifiedFlow := r.modifiedFlow, contentView := r.contentView, showFullContent := r.showFullContent)
  {
  }

  lemma UpdateEditChangesOnlyModifiedFlow(merge: Merger, s: UiFlowState, update: FlowPatch)
    ensures var r := Reduce(merge, s, UpdateEdit(update));
      && r.modifiedFlow == Some(merge(s.modifiedFlow, update))
      && InEditMode(r)
      && r == s.(modifiedFlow := r.modifiedFlow)
  {
  }

  lemma AbortEditLeavesEditMode(merge: Merger, s: UiFlowState)
    ensures var r := Reduce(merge, s, AbortEdit);
      && !InEditMode(r)
      && r.contentView == s.contentView
      && r == s.(modifiedFlow := r.modifiedFlow)
  {
  }

  lemma SelectLeavesEditMode(merge: Merger, s: UiFlowState, content: Option<Content>)
    ensures var r := Reduce(merge, s, Select(content));
      && !InEditMode(r)
      && !r.displayLarge
      && (r.contentView == "Auto" <==> InEditMode(s) || s.contentView == "Auto")
      && (!InEditMode(s) ==> r.contentView == s.contentView)
      && (r.showFullContent <==> |content.GetOr(s.content)| <= s.maxContentLines)
      && r == s.(modifiedFlow := None, displayLarge := false,
                 contentView := r.contentView, showFullContent := r.showFullContent)
  {
  }

  lemma UpdateOfEditedFlowEndsEdit(merge: Merger, s: UiFlowState, data: Flow)
    requires IsEditing(s, data.id)
    ensures var r := Reduce(merge, s, Update(data));
      && !InEditMode(r)
      && !r.displayLarge
      && r.contentView == "Auto"
      && !r.showFullContent
      && r == s.(modifiedFlow := None, displayLarge := false, contentView := "Auto", showFullContent := false)
  {
  }

  lemma UpdateOfOtherFlowIsNoOp(merge: Merger, s: UiFlowState, data: Flow)
    requires !IsEditing(s, data.id)
    ensures Reduce(merge, s, Update(data)) == s
  {
  }

  lemma SetTabEffect(merge: Merger, s: UiFlowState, tab: Option<string>)
    ensures var r := Reduce(merge, s, SetTab(tab));
      && (tab.Some? && tab.value != "" ==> r.tab == tab.value)
      && (tab.None? || tab.value == "" ==> r.tab == "request")
      && !r.displayLarge
      && (r.showFullContent <==> s.contentView == "Edit")
      && r == s.(tab := r.tab, displayLarge := false, showFullContent := r.showFullContent)
  {
  }

  lemma SetContentViewEffect(merge: Merger, s: UiFlowState, view: string)
    ensures var r := Reduce(merge, s, SetContentView(view));
      && r.contentView == view
      && (r.showFullContent <==> view == "Edit")
      && r == s.(contentView := view, showFullContent := r.showFullContent)
  {
  }

  lemma SetContentEffect(merge: Merger, s: UiFlowState, content: Content)
    ensures var r := Reduce(merge, s, SetContent(content));
      && r.content == content
      && (r.showFullContent <==> |content| <= s.maxContentLines)
      && r == s.(content := content, showFullContent := r.showFullContent)
  {
  }

  lemma SetContentViewDescriptionEffect(merge: Merger, s: UiFlowState, description: string)
    ensures Reduce(merge, s, SetContentViewDescription(description)) == s.(viewDescription := description)
  {
  }

  lemma SetShowFullContentEffect(merge: Merger, s: UiFlowState)
    ensures Reduce(merge, s, SetShowFullContent) == s.(showFullContent := true)
  {
  }

  lemma DisplayLargeEffect(merge: Merger, s: UiFlowState)
    ensures Reduce(merge, s, DisplayLarge) == s.(displayLarge := true)
  {
  }

  /** Dispatching any action other than UPDATE_EDIT twice is the same as dispatching it once. */
  lemma RepeatedActionIsIdempotent(merge: Merger, s: UiFlowState, a: Action)
    requires !a.UpdateEdit?
    ensures Reduce(merge, Reduce(merge, s, a), a) == Reduce(merge, s, a)
  {
  }

  // ---------------------------------------------------------------------
  // stopEdit
  // ---------------------------------------------------------------------

  /**
   * The differences between the original and the edited flow, as the
   * entries of the diff object in order; `None` is an `undefined` value.
   */
  type Diff<V> = seq<(string, Option<V>)>

  /** What stopEdit hands to dispatch: a flow update for the server, or a plain UI action. */
  datatype StopEditAction<V> =
    | FlowUpdate(flow: Flow, diff: Diff<V>)
    | UiAction(action: Action)

  /** `Object.values(diff).some(x => x !== undefined)`, scanning the entries in order. */
  function AnyDefined<V>(diff: Diff<V>): (r: bool)
    ensures r <==> exists i :: 0 <= i < |diff| && diff[i].1.Some?
  {
    if diff == [] then false
    else if diff[0].1.Some? then true
    else
      var rest := AnyDefined(diff[1..]);
      assert forall i :: 1 <= i < |diff| ==> diff[i] == diff[1..][i - 1];
      rest
  }

  /**
   * stopEdit(flow, modifiedFlow) with `diff` standing for
   * getDiff(flow, modifiedFlow): send the differences to the server, or
   * abort the edit when nothing was changed.
   */
  function StopEdit<V>(flow: Flow, diff: Diff<V>): (r: StopEditAction<V>)
    ensures r == UiAction(AbortEdit) <==> forall i :: 0 <= i < |diff| ==> diff[i].1.None?
    ensures r.UiAction? || r == FlowUpdate(flow, diff)
    ensures (exists i :: 0 <= i < |diff| && diff[i].1.Some?) ==> r == FlowUpdate(flow, diff)
  {
    if AnyDefined(diff) then FlowUpdate(flow, diff) else UiAction(AbortEdit)
  }
}
