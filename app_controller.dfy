/**
 * The App controller of the people list/detail page. Its handlers update the
 * `appView` properties, the technical-error latch and the detail area one
 * field at a time; each is proved to yield the state its `After<Handler>`
 * function in module AppView describes, and to keep `Inv`.
 *
 * Answers the framework gives while a handler runs (`hasPendingChanges()`,
 * the selected list item, an event's parameters) are parameters.
 */
module Controller {
  import opened Wrappers
  import opened AppView

  class AppController {
    // the `appView` JSON model
    var busy: bool
    var hasUIChanges: bool
    var usernameEmpty: bool
    var order: nat
    // `_bTechnicalErrors`
    var technicalErrors: bool
    // the detail area, the page layout and the search field
    var detailAreaPresent: bool
    var detailContext: Option<Context>
    var keptAlive: set<Context>
    var layout: Layout
    // stand-ins for the list binding, the message manager and the notifications
    var sorter: Option<Sorter>
    var creates: nat
    var refreshes: nat
    var batches: nat
    var resets: nat
    var deletes: seq<Context>
    var messages: seq<Message>
    var notices: seq<Notice>

    /** The controller's state as a value. */
    function State(): ViewState
      reads this
    {
      ViewState(busy, hasUIChanges, usernameEmpty, order, technicalErrors,
                detailAreaPresent, detailContext, keptAlive, layout,
                sorter, creates, refreshes, batches, resets, deletes, messages, notices)
    }

    ghost predicate Valid()
      reads this
    {
      Inv(State())
    }

    /** `onInit`: the `appView` model with its initial values and the latch cleared. */
    constructor (initialLayout: Layout)
      ensures Valid()
      ensures State() == Init(initialLayout)
    {
      busy, hasUIChanges, usernameEmpty, order := false, false, false, 0;
      technicalErrors := false;
      detailAreaPresent, detailContext, keptAlive, layout := true, None, {}, initialLayout;
      sorter, creates, refreshes, batches, resets, deletes := None, 0, 0, 0, 0, [];
      messages, notices := [], [];
    }

    /** `_setUIChanges`: `requested` is the optional argument, `pending` the framework's answer. */
    method SetUIChanges(requested: Option<bool>, pending: bool)
      modifies this
      ensures State() == WithUIChanges(old(State()), requested, pending)
    {
      var value: bool;
      if technicalErrors {
        value := true;
      } else if requested.None? {
        value := pending;
      } else {
        value := requested.value;
      }
      hasUIChanges := value;
    }

    /** `_setBusy`. */
    method SetBusy(isBusy: bool)
      modifies this
      ensures State() == WithBusy(old(State()), isBusy)
    {
      busy := isBusy;
    }

    /** `_setDetailArea`: a no-op without the detail area; else release, acquire, bind, resize. */
    method SetDetailArea(next: Option<Context>)
      modifies this
      ensures State() == WithDetailArea(old(State()), next)
    {
      if !detailAreaPresent {
        return;
      }
      var previous := detailContext;
      if previous.Some? {
        keptAlive := keptAlive - {previous.value};
      }
      if next.Some? {
        keptAlive := keptAlive + {next.value};
      }
      detailContext := next;
      var shown := next.Some?;
      layout := Layout(shown, if shown then "60%" else "100%", shown, if shown then "40%" else "20%");
    }

    method Notify(n: Notice)
      modifies this
      ensures State() == AppView.Notify(old(State()), n)
    {
      notices := notices + [n];
    }

    method OnCreate(pending: bool)
      requires Valid()
      modifies this
      ensures Valid()
      ensures State() == AfterCreate(old(State()), pending)
    {
      creates := creates + 1;
      SetUIChanges(None, pending);
      usernameEmpty := true;
    }

    /** `selected` is the binding context of the selected item, if any. */
    method OnDelete(selected: Option<Context>)
      requires Valid()
      modifies this
      ensures Valid()
      ensures State() == AfterDelete(old(State()), selected)
    {
      if selected.Some? {
        deletes := deletes + [selected.value];
        SetDetailArea(None);
        SetUIChanges(Some(true), false);
      }
    }

    method OnDeleteResolved(userName: string)
      requires Valid()
      modifies this
      ensures Valid()
      ensures State() == AfterDeleteResolved(old(State()), userName)
    {
      Notify(DeletionSuccess(userName));
    }

    /** The rejection callback of `onDelete`, with a missing selection read as a different one. */
    method OnDeleteRejected(context: Context, userName: string, selectedNow: Option<Context>,
                            canceled: bool, message: string, pending: bool)
      requires Valid()
      modifies this
      ensures Valid()
      ensures State() == AfterDeleteRejected(old(State()), context, userName, selectedNow, canceled, message, pending)
    {
      if selectedNow == Some(context) {
        SetDetailArea(Some(context));
      }
      SetUIChanges(None, pending);
      if canceled {
        Notify(DeletionRestored(userName));
        return;
      }
      Notify(DeletionFailed(message + ": " + userName));
    }

    method OnInputChange(escPressed: bool, userName: string, pending: bool)
      requires Valid()
      modifies this
      ensures Valid()
      ensures State() == AfterInputChange(old(State()), escPressed, userName, pending)
    {
      if escPressed {
        SetUIChanges(None, pending);
      } else {
        SetUIChanges(Some(true), pending);
        if userName != "" {
          usernameEmpty := false;
        }
      }
    }

    method OnRefresh(pending: bool)
      requires Valid()
      modifies this
      ensures Valid()
      ensures State() == AfterRefresh(old(State()), pending)
    {
      if pending {
        Notify(RefreshNotPossible);
        return;
      }
      refreshes := refreshes + 1;
      Notify(RefreshSuccess);
    }

    method OnResetChanges(pending: bool)
      requires Valid()
      modifies this
      ensures Valid()
      ensures State() == AfterResetChanges(old(State()), pending)
    {
      resets := resets + 1;
      technicalErrors := false;
      SetUIChanges(None, pending);
    }

    method OnSave()
      requires Valid()
      modifies this
      ensures Valid()
      ensures State() == AfterSave(old(State()))
    {
      SetBusy(true);
      batches := batches + 1;
      technicalErrors := false;
    }

    method OnSaveResolved()
      requires Valid()
      modifies this
      ensures Valid()
      ensures State() == AfterSaveResolved(old(State()))
    {
      SetBusy(false);
      Notify(ChangesSent);
      SetUIChanges(Some(false), false);
    }

    method OnSaveRejected(message: string)
      requires Valid()
      modifies this
      ensures Valid()
      ensures State() == AfterSaveRejected(old(State()), message)
    {
      SetBusy(false);
      SetUIChanges(Some(false), false);
      Notify(SaveFailed(message));
    }

    method OnSort()
      requires Valid()
      modifies this
      ensures Valid()
      ensures State() == AfterSort(old(State()))
    {
      var next := (order + 1) % SORT_STATES;
      order := next;
      sorter := if next == 0 then None else Some(Sorter("LastName", next == 2));
      Notify(SortToast(next));
    }

    /** `contexts` are the technical messages the message binding holds. */
    method OnMessageBindingChange(contexts: seq<Message>)
      requires Valid()
      modifies this
      ensures Valid()
      ensures State() == AfterMessageBindingChange(old(State()), contexts)
    {
      if |contexts| == 0 {
        return;
      }
      messages := Without(messages, contexts);
      SetUIChanges(Some(true), false);
      technicalErrors := true;
      Notify(ServiceError(contexts[0].text));
    }

    method OnSelectionChange(context: Context)
      requires Valid()
      modifies this
      ensures Valid()
      ensures State() == AfterSelectionChange(old(State()), context)
    {
      SetDetailArea(Some(context));
    }

    /** The callback registered with `setKeepAlive`, run when the kept row is gone. */
    method OnKeptContextVanished()
      requires Valid()
      modifies this
      ensures Valid()
      ensures State() == AfterKeptContextVanished(old(State()))
    {
      SetDetailArea(None);
    }

    /** Environment: the service reports a technical message. */
    method ReportMessage(m: Message)
      requires Valid()
      modifies this
      ensures Valid()
      ensures State() == AfterMessageReported(old(State()), m)
    {
      messages := messages + [m];
    }

    /** Environment: the view is torn down and its detail area control destroyed. */
    method DestroyDetailArea()
      requires Valid()
      modifies this
      ensures Valid()
      ensures State() == AfterDetailAreaDestroyed(old(State()))
    {
      detailAreaPresent := false;
    }
  }
}
