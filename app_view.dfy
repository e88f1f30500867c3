/**
 * The view state of the people list/detail page and the rules the App
 * controller applies to it, as values. Each handler of the controller has a
 * specification function `After<Handler>` here; the class in
 * app_controller.dfy is proved to produce exactly that state.
 */
module AppView {
  import opened Wrappers

  /** The binding context of one row of the people list. */
  datatype Context = Context(id: nat)

  /** A sorter of the list binding on one property. */
  datatype Sorter = Sorter(path: string, descending: bool)

  /** A technical message held by the message manager. */
  datatype Message = Message(id: nat, text: string)

  /** The sizes of the page layout around the detail area. */
  datatype Layout = Layout(detailVisible: bool, size: string, resizable: bool, searchWidth: string)

  /** A notification shown to the user: a toast or an error box, by text key. */
  datatype Notice =
    | SortToast(order: nat)
    | RefreshNotPossible
    | RefreshSuccess
    | ChangesSent
    | SaveFailed(message: string)
    | DeletionSuccess(userName: string)
    | DeletionRestored(userName: string)
    | DeletionFailed(text: string)
    | ServiceError(message: string)
  {
    /** Shown with `MessageBox.error` rather than `MessageToast.show`. */
    predicate IsError() {
      RefreshNotPossible? || SaveFailed? || DeletionFailed? || ServiceError?
    }
  }

  /**
   * Everything the controller reads or writes: the `appView` properties, the
   * technical-error latch, the detail area and layout controls, and stand-ins
   * for the framework objects it drives (the list binding's sorter and the
   * requests issued to it: creates, refreshes, resets, batches, deletions; the message manager's store, the notifications).
   */
  datatype ViewState = ViewState(
    busy: bool,
    hasUIChanges: bool,
    usernameEmpty: bool,
    order: nat,
    technicalErrors: bool,
    detailAreaPresent: bool,
    detailContext: Option<Context>,
    keptAlive: set<Context>,
    layout: Layout,
    sorter: Option<Sorter>,
    creates: nat,
    refreshes: nat,
    batches: nat,
    resets: nat,
    deletes: seq<Context>,
    messages: seq<Message>,
    notices: seq<Notice>)

  /** Number of sort states: none, ascending, descending. */
  const SORT_STATES := 3

  /** The state right after `onInit`; the layout is the one the view declares. */
  function Init(layout: Layout): (s: ViewState)
    ensures !s.busy && !s.hasUIChanges && !s.usernameEmpty && s.order == 0 && !s.technicalErrors
    ensures s.detailContext == None && s.keptAlive == {}
  {
    ViewState(false, false, false, 0, false, true, None, {}, layout, None, 0, 0, 0, 0, [], [], [])
  }

  /**
   * The invariant every handler keeps: the order is a sort state whose sorter
   * is the one applied, the latch implies unsaved changes are shown, and
   * exactly the detail context is kept alive.
   */
  predicate Inv(s: ViewState) {
    s.order < SORT_STATES
    && s.sorter == SorterFor(s.order)
    && (s.technicalErrors ==> s.hasUIChanges)
    && s.keptAlive == OptionSet(s.detailContext)
  }

  // ---------------------------------------------------------------------
  // Rules
  // ---------------------------------------------------------------------

  /** The sort order after one more `onSort`: one step forward, wrapping after descending. */
  function NextOrder(order: nat): (r: nat)
    ensures r < SORT_STATES
    ensures order < SORT_STATES - 1 ==> r == order + 1
    ensures order == SORT_STATES - 1 ==> r == 0
  {
    (order + 1) % SORT_STATES
  }

  /** The sorter applied for a sort state: none, ascending or descending on `LastName`. */
  function SorterFor(order: nat): (r: Option<Sorter>)
    requires order < SORT_STATES
    ensures r.None? <==> order == 0
    ensures r.Some? ==> r.value.path == "LastName" && (r.value.descending <==> order == 2)
  {
    if order == 0 then None else Some(Sorter("LastName", order == 2))
  }

  /**
   * The value `_setUIChanges` writes to `hasUIChanges`: the latch forces true;
   * otherwise an omitted argument defers to the framework's pending changes.
   */
  function UIChangesValue(technicalErrors: bool, requested: Option<bool>, pending: bool): (r: bool)
    ensures technicalErrors ==> r
    ensures r <==> technicalErrors || requested == Some(true) || (requested == None && pending)
  {
    if technicalErrors then true
    else if requested.None? then pending
    else requested.value
  }

  /** The layout for a detail area that is shown or hidden. */
  function LayoutFor(shown: bool): Layout {
    Layout(shown, if shown then "60%" else "100%", shown, if shown then "40%" else "20%")
  }

  /** Keep-alive after releasing `previous` and then acquiring `next`. */
  function SwapKeepAlive(kept: set<Context>, previous: Option<Context>, next: Option<Context>): (r: set<Context>)
    ensures next.Some? ==> next.value in r
    ensures previous.Some? && previous != next ==> previous.value !in r
    ensures forall c :: c !in OptionSet(previous) && c !in OptionSet(next) ==> (c in r <==> c in kept)
    ensures kept == OptionSet(previous) ==> r == OptionSet(next)
  {
    (kept - OptionSet(previous)) + OptionSet(next)
  }

  /** The store after removing every message of `removed` from it. */
  function Without(store: seq<Message>, removed: seq<Message>): (r: seq<Message>)
    ensures forall m :: m in r <==> m in store && m !in removed
    ensures |r| <= |store|
  {
    if store == [] then []
    else if store[0] in removed then Without(store[1..], removed)
    else [store[0]] + Without(store[1..], removed)
  }

  // ---------------------------------------------------------------------
  // Helpers of the controller
  // ---------------------------------------------------------------------

  /**
   * `_setUIChanges(requested)`, with `pending` the framework's answer; the
   * framework is only asked, and `pending` only read, when `requested` is None.
   */
  function WithUIChanges(s: ViewState, requested: Option<bool>, pending: bool): ViewState {
    s.(hasUIChanges := UIChangesValue(s.technicalErrors, requested, pending))
  }

  /** `_setBusy(busy)`. */
  function WithBusy(s: ViewState, busy: bool): ViewState {
    s.(busy := busy)
  }

  /** `_setDetailArea(next)`: swaps keep-alive, binds the area, and resizes the page. */
  function WithDetailArea(s: ViewState, next: Option<Context>): (t: ViewState)
    ensures !s.detailAreaPresent ==> t == s
    ensures s.detailAreaPresent ==> t.detailContext == next && t.keptAlive == SwapKeepAlive(s.keptAlive, s.detailContext, next)
    ensures s.detailAreaPresent ==> t.layout.detailVisible == next.Some? && t.layout.resizable == next.Some?
    ensures s.detailAreaPresent ==> t.layout.size == (if next.Some? then "60%" else "100%")
    ensures s.detailAreaPresent ==> t.layout.searchWidth == (if next.Some? then "40%" else "20%")
    ensures t.(detailContext := s.detailContext, keptAlive := s.keptAlive, layout := s.layout) == s
  {
    if !s.detailAreaPresent then s
    else s.(keptAlive := SwapKeepAlive(s.keptAlive, s.detailContext, next),
            detailContext := next,
            layout := LayoutFor(next.Some?))
  }

  function Notify(s: ViewState, n: Notice): ViewState {
    s.(notices := s.notices + [n])
  }

  // ---------------------------------------------------------------------
  // Handlers
  // ---------------------------------------------------------------------

  /** `onCreate`: a transient row is created, changes recomputed, user name flagged empty. */
  function AfterCreate(s: ViewState, pending: bool): ViewState {
    WithUIChanges(s.(creates := s.creates + 1), None, pending).(usernameEmpty := true)
  }

  /**
   * `onDelete`: with a selected row, its deletion is requested, the detail
   * area is cleared and unsaved changes are forced; without one, nothing.
   */
  function AfterDelete(s: ViewState, selected: Option<Context>): ViewState {
    if selected.None? then s
    else WithUIChanges(WithDetailArea(s.(deletes := s.deletes + [selected.value]), None), Some(true), false)
  }

  /** The deletion was confirmed by the service. */
  function AfterDeleteResolved(s: ViewState, userName: string): ViewState {
    Notify(s, DeletionSuccess(userName))
  }

  /**
   * The deletion was rejected and the row restored: the detail area shows the
   * row again when it is still the selected one, changes are recomputed, and
   * the user is told (a neutral toast when the deletion was canceled).
   * `selectedNow` is the binding context of the list's selected item, if any.
   */
  function AfterDeleteRejected(s: ViewState, context: Context, userName: string, selectedNow: Option<Context>,
                               canceled: bool, message: string, pending: bool): ViewState
  {
    var shown := if selectedNow == Some(context) then WithDetailArea(s, Some(context)) else s;
    var recomputed := WithUIChanges(shown, None, pending);
    Notify(recomputed, if canceled then DeletionRestored(userName) else DeletionFailed(message + ": " + userName))
  }

  /**
   * The rejection handler as written: `getSelectedItem()` is dereferenced
   * without a check, so with no selected item the callback stops with a
   * TypeError before recomputing changes or notifying the user.
   */
  function AfterDeleteRejectedAsWritten(s: ViewState, context: Context, userName: string, selectedNow: Option<Context>,
                                        canceled: bool, message: string, pending: bool): ViewState
  {
    if selectedNow.None? then s
    else AfterDeleteRejected(s, context, userName, selectedNow, canceled, message, pending)
  }

  /** `onInputChange`: Escape only recomputes; an edit forces changes and may clear the empty-name flag. */
  function AfterInputChange(s: ViewState, escPressed: bool, userName: string, pending: bool): ViewState {
    if escPressed then WithUIChanges(s, None, pending)
    else
      var edited := WithUIChanges(s, Some(true), pending);
      if userName != "" then edited.(usernameEmpty := false) else edited
  }

  /** `onRefresh`: refused with an error while changes are pending, else one refresh. */
  function AfterRefresh(s: ViewState, pending: bool): ViewState {
    if pending then Notify(s, RefreshNotPossible)
    else Notify(s.(refreshes := s.refreshes + 1), RefreshSuccess)
  }

  /** `onResetChanges`: the binding's changes are reset, the latch cleared, changes recomputed. */
  function AfterResetChanges(s: ViewState, pending: bool): ViewState {
    WithUIChanges(s.(resets := s.resets + 1, technicalErrors := false), None, pending)
  }

  /** `onSave`: busy, one batch submitted, latch cleared. */
  function AfterSave(s: ViewState): ViewState {
    WithBusy(s, true).(batches := s.batches + 1, technicalErrors := false)
  }

  /** The batch succeeded. */
  function AfterSaveResolved(s: ViewState): ViewState {
    WithUIChanges(Notify(WithBusy(s, false), ChangesSent), Some(false), false)
  }

  /** The batch failed. */
  function AfterSaveRejected(s: ViewState, message: string): ViewState {
    Notify(WithUIChanges(WithBusy(s, false), Some(false), false), SaveFailed(message))
  }

  /** `onSort`: next sort state, its sorter applied to the list, a toast naming it. */
  function AfterSort(s: ViewState): ViewState {
    var order := NextOrder(s.order);
    Notify(s.(order := order, sorter := SorterFor(order)), SortToast(order))
  }

  /**
   * `onMessageBindingChange`: with no technical messages nothing happens;
   * otherwise they are removed from the store, changes forced, the latch set
   * and the first message shown.
   */
  function AfterMessageBindingChange(s: ViewState, contexts: seq<Message>): ViewState {
    if |contexts| == 0 then s
    else
      var forced := WithUIChanges(s.(messages := Without(s.messages, contexts)), Some(true), false);
      Notify(forced.(technicalErrors := true), ServiceError(contexts[0].text))
  }

  /** `onSelectionChange`: the selected row goes to the detail area. */
  function AfterSelectionChange(s: ViewState, context: Context): ViewState {
    WithDetailArea(s, Some(context))
  }

  /** The keep-alive callback: the kept row no longer exists, so the detail area is cleared. */
  function AfterKeptContextVanished(s: ViewState): ViewState {
    WithDetailArea(s, None)
  }

  /** The service reports a technical message to the message manager. */
  function AfterMessageReported(s: ViewState, m: Message): ViewState {
    s.(messages := s.messages + [m])
  }

  /** The view is being destroyed: the detail area control no longer exists. */
  function AfterDetailAreaDestroyed(s: ViewState): ViewState {
    s.(detailAreaPresent := false)
  }
}
