/**
 * Sequences of handler calls and asynchronous outcomes, and what the
 * controller's rules guarantee across them: the invariant, the sticky
 * technical-error latch, the sort cycle, the save round, the detail-area
 * swap and the delete round.
 */
module Traces {
  import opened Wrappers
  import opened AppView

  /** One call into the controller: a user event, a promise outcome or an environment step. */
  datatype Event =
    | Create(pending: bool)
    | Delete(selected: Option<Context>)
    | DeleteResolved(userName: string)
    | DeleteRejected(context: Context, userName: string, selectedNow: Option<Context>,
                     canceled: bool, message: string, pending: bool)
    | InputChange(escPressed: bool, userName: string, pending: bool)
    | Refresh(pending: bool)
    | ResetChanges(pending: bool)
    | Save
    | SaveResolved
    | SaveRejected(message: string)
    | Sort
    | MessageBindingChange(contexts: seq<Message>)
    | SelectionChange(context: Context)
    | KeptContextVanished
    | MessageReported(report: Message)
    | DetailAreaDestroyed

  function Step(s: ViewState, e: Event): ViewState {
    match e
    case Create(pending) => AfterCreate(s, pending)
    case Delete(selected) => AfterDelete(s, selected)
    case DeleteResolved(userName) => AfterDeleteResolved(s, userName)
    case DeleteRejected(context, userName, selectedNow, canceled, message, pending) =>
      AfterDeleteRejected(s, context, userName, selectedNow, canceled, message, pending)
    case InputChange(escPressed, userName, pending) => AfterInputChange(s, escPressed, userName, pending)
    case Refresh(pending) => AfterRefresh(s, pending)
    case ResetChanges(pending) => AfterResetChanges(s, pending)
    case Save => AfterSave(s)
    case SaveResolved => AfterSaveResolved(s)
    case SaveRejected(message) => AfterSaveRejected(s, message)
    case Sort => AfterSort(s)
    case MessageBindingChange(contexts) => AfterMessageBindingChange(s, contexts)
    case SelectionChange(context) => AfterSelectionChange(s, context)
    case KeptContextVanished => AfterKeptContextVanished(s)
    case MessageReported(m) => AfterMessageReported(s, m)
    case DetailAreaDestroyed => AfterDetailAreaDestroyed(s)
  }

  function Run(s: ViewState, events: seq<Event>): ViewState
    decreases |events|
  {
    if events == [] then s else Run(Step(s, events[0]), events[1..])
  }

  lemma RunTwo(s: ViewState, e1: Event, e2: Event)
    ensures Run(s, [e1, e2]) == Step(Step(s, e1), e2)
  {
    assert [e1, e2][1..] == [e2];
    assert [e2][1..] == [];
    assert Run(s, [e1, e2]) == Run(Step(s, e1), [e2]);
    assert Run(Step(s, e1), [e2]) == Run(Step(Step(s, e1), e2), []);
  }

  lemma RunThree(s: ViewState, e1: Event, e2: Event, e3: Event)
    ensures Run(s, [e1, e2, e3]) == Step(Step(Step(s, e1), e2), e3)
  {
    assert [e1, e2, e3][1..] == [e2, e3];
    RunTwo(Step(s, e1), e2, e3);
  }

  /** The only events that clear the technical-error latch. */
  predicate ClearsLatch(e: Event) {
    e.Save? || e.ResetChanges?
  }

  function Sorts(n: nat): (r: seq<Event>)
    ensures |r| == n
    ensures forall i :: 0 <= i < n ==> r[i] == Sort
  {
    seq(n, _ => Sort)
  }

  // ---------------------------------------------------------------------
  // The invariant
  // ---------------------------------------------------------------------

  lemma InitSatisfiesInv(layout: Layout)
    ensures Inv(Init(layout))
  {
  }

  /** Every handler keeps the invariant. */
  lemma StepKeepsInv(s: ViewState, e: Event)
    requires Inv(s)
    ensures Inv(Step(s, e))
  {
    if MovesDetailOrOrder(e) {
      DetailOrOrderStepKeepsInv(s, e);
    } else {
      FlagStepKeepsInv(s, e);
    }
  }

  /** The events that touch the order, the sorter or the detail area. */
  predicate MovesDetailOrOrder(e: Event) {
    e.Sort? || e.Delete? || e.DeleteRejected? || e.SelectionChange? || e.KeptContextVanished?
  }

  lemma DetailOrOrderStepKeepsInv(s: ViewState, e: Event)
    requires Inv(s) && MovesDetailOrOrder(e)
    ensures Inv(Step(s, e))
  {
    match e
    case Sort =>
      assert AfterSort(s).order == NextOrder(s.order);
    case Delete(selected) =>
      if selected.Some? {
        var cleared := WithDetailArea(s.(deletes := s.deletes + [selected.value]), None);
        DetailAreaKeepsInv(s.(deletes := s.deletes + [selected.value]), None);
        FlagsKeepInv(cleared, Step(s, e));
      }
    case DeleteRejected(context, userName, selectedNow, canceled, message, pending) =>
      var shown := if selectedNow == Some(context) then WithDetailArea(s, Some(context)) else s;
      DetailAreaKeepsInv(s, Some(context));
      FlagsKeepInv(shown, Step(s, e));
    case SelectionChange(context) =>
      DetailAreaKeepsInv(s, Some(context));
    case KeptContextVanished =>
      DetailAreaKeepsInv(s, None);
  }

  lemma FlagStepKeepsInv(s: ViewState, e: Event)
    requires Inv(s) && !MovesDetailOrOrder(e)
    ensures Inv(Step(s, e))
  {
    if e.InputChange? {
      InputChangeKeepsInv(s, e.escPressed, e.userName, e.pending);
    } else {
      FlagsKeepInv(s, Step(s, e));
    }
  }

  lemma InputChangeKeepsInv(s: ViewState, escPressed: bool, userName: string, pending: bool)
    requires Inv(s)
    ensures Inv(AfterInputChange(s, escPressed, userName, pending))
  {
    var edited := WithUIChanges(s, Some(true), pending);
    assert Inv(edited);
    if !escPressed && userName != "" {
      assert AfterInputChange(s, escPressed, userName, pending) == edited.(usernameEmpty := false);
    }
  }

  /** A step that leaves the order, the sorter and the detail area alone keeps the invariant if it keeps the latch rule. */
  lemma FlagsKeepInv(s: ViewState, t: ViewState)
    requires Inv(s)
    requires t.order == s.order && t.sorter == s.sorter
    requires t.detailContext == s.detailContext && t.keptAlive == s.keptAlive
    requires t.technicalErrors ==> t.hasUIChanges
    ensures Inv(t)
  {
  }

  /** `_setDetailArea` keeps the invariant: what is kept alive follows the bound context. */
  lemma DetailAreaKeepsInv(s: ViewState, next: Option<Context>)
    requires Inv(s)
    ensures Inv(WithDetailArea(s, next))
  {
  }

  lemma {:induction false} RunKeepsInv(s: ViewState, events: seq<Event>)
    requires Inv(s)
    ensures Inv(Run(s, events))
    decreases |events|
  {
    if events != [] {
      StepKeepsInv(s, events[0]);
      RunKeepsInv(Step(s, events[0]), events[1..]);
    }
  }

  /** With the invariant, at most one context is kept alive. */
  lemma AtMostOneKeptAlive(s: ViewState)
    requires Inv(s)
    ensures |s.keptAlive| <= 1
    ensures forall c :: c in s.keptAlive ==> s.detailContext == Some(c)
  {
  }

  // ---------------------------------------------------------------------
  // The technical-error latch
  // ---------------------------------------------------------------------

  /**
   * Once set, the latch and "unsaved changes" stay on through every event
   * other than a save or a reset, whatever the framework reports.
   */
  lemma {:induction false} LatchHoldsUntilSaveOrReset(s: ViewState, events: seq<Event>)
    requires s.technicalErrors && s.hasUIChanges
    requires forall i :: 0 <= i < |events| ==> !ClearsLatch(events[i])
    ensures Run(s, events).technicalErrors && Run(s, events).hasUIChanges
    decreases |events|
  {
    if events != [] {
      assert !ClearsLatch(events[0]);
      StepKeepsLatch(s, events[0]);
      LatchHoldsUntilSaveOrReset(Step(s, events[0]), events[1..]);
    }
  }

  lemma StepKeepsLatch(s: ViewState, e: Event)
    requires s.technicalErrors && s.hasUIChanges
    requires !ClearsLatch(e)
    ensures Step(s, e).technicalErrors && Step(s, e).hasUIChanges
  {
  }

  /** The latch forces "changes" even where Escape would defer to the framework. */
  lemma LatchOverridesEscape(s: ViewState, userName: string)
    requires s.technicalErrors
    ensures AfterInputChange(s, true, userName, false).hasUIChanges
    ensures AfterSaveResolved(s).hasUIChanges && !AfterSaveResolved(s).busy
  {
  }

  /** A reset clears the latch first, so the recomputed flag is the framework's answer. */
  lemma ResetClearsLatchFirst(s: ViewState, pending: bool)
    ensures !AfterResetChanges(s, pending).technicalErrors
    ensures AfterResetChanges(s, pending).hasUIChanges == pending
    ensures AfterResetChanges(s, pending).resets == s.resets + 1
  {
  }

  // ---------------------------------------------------------------------
  // The sort cycle
  // ---------------------------------------------------------------------

  /** `n` sorts advance the order by `n` modulo 3 and apply that state's sorter. */
  lemma {:induction false} SortCycle(s: ViewState, n: nat)
    requires s.order < SORT_STATES
    ensures Run(s, Sorts(n)).order == (s.order + n) % SORT_STATES
    ensures n > 0 ==> Run(s, Sorts(n)).sorter == SorterFor((s.order + n) % SORT_STATES)
    ensures Run(s, Sorts(n)).(order := s.order, sorter := s.sorter, notices := s.notices) == s
    ensures |Run(s, Sorts(n)).notices| == |s.notices| + n
    decreases n
  {
    if n > 0 {
      var t := AfterSort(s);
      assert Sorts(n)[1..] == Sorts(n - 1);
      SortCycle(t, n - 1);
      assert (t.order + (n - 1)) % SORT_STATES == (s.order + n) % SORT_STATES by {
        assert t.order == (s.order + 1) % SORT_STATES;
      }
    }
  }

  /** Three sorts bring the order and the sorter back. */
  lemma ThreeSortsRestore(s: ViewState)
    requires Inv(s)
    ensures Run(s, Sorts(3)).order == s.order
    ensures Run(s, Sorts(3)).sorter == s.sorter
  {
    SortCycle(s, 3);
  }

  /** From `onInit`, the `n`-th sort leaves order `n` modulo 3. */
  lemma SortsFromInit(layout: Layout, n: nat)
    ensures Run(Init(layout), Sorts(n)).order == n % SORT_STATES
  {
    SortCycle(Init(layout), n);
  }

  // ---------------------------------------------------------------------
  // Refresh, save and the message feed
  // ---------------------------------------------------------------------

  /** Refresh is refused with an error while changes are pending, and otherwise refreshes once. */
  lemma RefreshGuard(s: ViewState, pending: bool)
    ensures pending ==> AfterRefresh(s, pending).(notices := s.notices) == s
    ensures pending ==> AfterRefresh(s, pending).notices == s.notices + [RefreshNotPossible]
    ensures pending ==> AfterRefresh(s, pending).notices[|s.notices|].IsError()
    ensures !pending ==> AfterRefresh(s, pending).(refreshes := s.refreshes, notices := s.notices) == s
    ensures !pending ==> AfterRefresh(s, pending).refreshes == s.refreshes + 1
    ensures !pending ==> AfterRefresh(s, pending).notices == s.notices + [RefreshSuccess]
  {
  }

  /** A save followed by either outcome ends not busy, with no changes shown and no latch. */
  lemma SaveRound(s: ViewState, resolved: bool, message: string)
    ensures var t := Run(s, [Save, if resolved then SaveResolved else SaveRejected(message)]);
      !t.busy && !t.hasUIChanges && !t.technicalErrors && t.batches == s.batches + 1
  {
    RunTwo(s, Save, if resolved then SaveResolved else SaveRejected(message));
  }

  /** A technical message arriving while the batch is in flight survives the batch's success. */
  lemma MessageDuringSave(s: ViewState, contexts: seq<Message>)
    requires |contexts| > 0
    ensures var t := Run(s, [Save, MessageBindingChange(contexts), SaveResolved]);
      !t.busy && t.hasUIChanges && t.technicalErrors
  {
    RunThree(s, Save, MessageBindingChange(contexts), SaveResolved);
  }

  /** `onSave` does not look at `busy`: a save while busy submits a further batch. */
  lemma SaveWhileBusySubmits(s: ViewState)
    requires s.busy
    ensures AfterSave(s).busy && AfterSave(s).batches == s.batches + 1
  {
  }

  /**
   * With no contexts the message handler changes nothing; otherwise every
   * received message leaves the store, the latch is set, changes are shown
   * and the first message is shown as an error.
   */
  lemma MessageFeed(s: ViewState, contexts: seq<Message>)
    ensures |contexts| == 0 ==> AfterMessageBindingChange(s, contexts) == s
    ensures |contexts| > 0 ==>
      var t := AfterMessageBindingChange(s, contexts);
      t.technicalErrors && t.hasUIChanges
      && (forall m :: m in contexts ==> m !in t.messages)
      && (forall m :: m in s.messages && m !in contexts ==> m in t.messages)
      && t.notices == s.notices + [ServiceError(contexts[0].text)]
  {
  }

  // ---------------------------------------------------------------------
  // The detail area
  // ---------------------------------------------------------------------

  /** Selecting a row keeps exactly that row alive and shows the detail pane. */
  lemma SelectionSwap(s: ViewState, c: Context)
    requires Inv(s) && s.detailAreaPresent
    ensures var t := AfterSelectionChange(s, c);
      t.keptAlive == {c} && t.detailContext == Some(c)
      && t.layout == Layout(true, "60%", true, "40%")
  {
  }

  /** Without the detail area, neither selecting nor clearing changes anything. */
  lemma NoDetailAreaNoOp(s: ViewState, c: Context)
    requires !s.detailAreaPresent
    ensures AfterSelectionChange(s, c) == s && AfterKeptContextVanished(s) == s
  {
  }

  /** Setting the same detail context twice is the same as once. */
  lemma DetailAreaIdempotent(s: ViewState, next: Option<Context>)
    ensures WithDetailArea(WithDetailArea(s, next), next) == WithDetailArea(s, next)
  {
  }

  // ---------------------------------------------------------------------
  // Create, input and delete
  // ---------------------------------------------------------------------

  /** A created row flags the user name empty until an edit supplies one. */
  lemma CreateThenName(s: ViewState, p1: bool, p2: bool, userName: string)
    ensures AfterCreate(s, p1).usernameEmpty && AfterCreate(s, p1).creates == s.creates + 1
    ensures var t := Run(s, [Create(p1), InputChange(false, userName, p2)]);
      t.hasUIChanges && (t.usernameEmpty <==> userName == "")
  {
    RunTwo(s, Create(p1), InputChange(false, userName, p2));
  }

  /** Escape only recomputes the change flag. */
  lemma EscapeOnlyRecomputes(s: ViewState, userName: string, pending: bool)
    ensures AfterInputChange(s, true, userName, pending).(hasUIChanges := s.hasUIChanges) == s
    ensures AfterInputChange(s, true, userName, pending).hasUIChanges == UIChangesValue(s.technicalErrors, None, pending)
  {
  }

  /** Deleting the selected row requests its deletion, clears the detail area and forces changes. */
  lemma DeleteClearsDetail(s: ViewState, c: Context)
    requires Inv(s) && s.detailAreaPresent
    ensures var t := AfterDelete(s, Some(c));
      t.deletes == s.deletes + [c] && t.detailContext == None && t.keptAlive == {}
      && !t.layout.detailVisible && t.hasUIChanges
    ensures AfterDelete(s, None) == s
  {
  }

  /**
   * A rejected deletion of the still-selected row shows it again, kept alive,
   * and tells the user whether it was canceled or failed.
   */
  lemma DeleteRejectedRestoresDetail(s: ViewState, c: Context, userName: string, canceled: bool,
                                     message: string, pending: bool)
    requires Inv(s) && s.detailAreaPresent
    ensures var t := Run(s, [Delete(Some(c)), DeleteRejected(c, userName, Some(c), canceled, message, pending)]);
      t.detailContext == Some(c) && t.keptAlive == {c} && t.layout.detailVisible
      && t.notices == s.notices + [if canceled then DeletionRestored(userName) else DeletionFailed(message + ": " + userName)]
  {
    RunTwo(s, Delete(Some(c)), DeleteRejected(c, userName, Some(c), canceled, message, pending));
  }

  /** The corrected rejection handler recomputes changes and notifies, whatever is selected. */
  lemma DeleteRejectedAlwaysNotifies(s: ViewState, c: Context, userName: string, selectedNow: Option<Context>,
                                     canceled: bool, message: string, pending: bool)
    ensures var t := AfterDeleteRejected(s, c, userName, selectedNow, canceled, message, pending);
      t.hasUIChanges == UIChangesValue(s.technicalErrors, None, pending)
      && |t.notices| == |s.notices| + 1
      && (t.notices[|s.notices|].IsError() <==> !canceled)
  {
  }

  /**
   * As written, a rejection arriving when no list item is selected stops at
   * the dereference. After a delete whose batch then fails, the rejection
   * arrives with the restored row pending: the page keeps showing "no
   * changes" and the user is told nothing, where the corrected handler shows
   * changes and one notice.
   */
  lemma DeleteRejectedAsWrittenIsSilent(layout: Layout, c: Context, userName: string, message: string, failure: string)
    ensures var s := Run(Init(layout), [Delete(Some(c)), Save, SaveRejected(failure)]);
      var t := AfterDeleteRejectedAsWritten(s, c, userName, None, false, message, true);
      var corrected := AfterDeleteRejected(s, c, userName, None, false, message, true);
      !t.hasUIChanges && t.notices == s.notices
      && corrected.hasUIChanges && |corrected.notices| == |s.notices| + 1
  {
    RunThree(Init(layout), Delete(Some(c)), Save, SaveRejected(failure));
  }
}
