/** The client's UI store: sidebar and dark-mode flags, one notification and
    one modal. `Reduce` is the reducer as a function of the old state and the
    action; `UiStore` holds the state in fields with one method per reducer. */
module UiSlice {
  import opened Common

  datatype Severity = Success | Error | Info | Warning

  datatype Notification = Notification(open: bool, message: string, severity: Severity)

  /** `data` is whatever the caller attached; the reducer stores it as given
      unless it is falsy. */
  datatype Modal = Modal(open: bool, kind: Option<string>, data: JsValue)

  datatype UiState = UiState(sidebarOpen: bool, darkMode: bool, notification: Notification, modal: Modal)

  const ClosedModal := Modal(false, None, Null)

  const InitialState := UiState(false, false, Notification(false, "", Info), ClosedModal)

  datatype UiAction =
    | ToggleSidebar
    | SetSidebarOpen(open: bool)
    | ToggleDarkMode
    | SetDarkMode(enabled: bool)
    | ShowNotification(message: string, severity: Severity)
    | HideNotification
    | OpenModal(kind: string, data: JsValue)
    | CloseModal

  function Reduce(s: UiState, a: UiAction): (r: UiState)
    ensures a.ToggleSidebar? ==> r.sidebarOpen != s.sidebarOpen && r == s.(sidebarOpen := r.sidebarOpen)
    ensures a.SetSidebarOpen? ==> r.sidebarOpen == a.open && r == s.(sidebarOpen := a.open)
    ensures a.ToggleDarkMode? ==> r.darkMode != s.darkMode && r == s.(darkMode := r.darkMode)
    ensures a.SetDarkMode? ==> r.darkMode == a.enabled && r == s.(darkMode := a.enabled)
    ensures a.ShowNotification? ==>
              && r.notification == Notification(true, a.message, a.severity)
              && r.sidebarOpen == s.sidebarOpen && r.darkMode == s.darkMode && r.modal == s.modal
    ensures a.HideNotification? ==>
              && !r.notification.open
              && r.notification.message == s.notification.message
              && r.notification.severity == s.notification.severity
              && r == s.(notification := r.notification)
    ensures a.OpenModal? ==>
              && r.modal.open && r.modal.kind == Some(a.kind)
              && (Truthy(a.data) ==> r.modal.data == a.data)
              && (!Truthy(a.data) ==> r.modal.data == Null)
              && r == s.(modal := r.modal)
    ensures a.CloseModal? ==> r.modal == InitialState.modal && r == s.(modal := r.modal)
  {
    match a
    case ToggleSidebar => s.(sidebarOpen := !s.sidebarOpen)
    case SetSidebarOpen(open) => s.(sidebarOpen := open)
    case ToggleDarkMode => s.(darkMode := !s.darkMode)
    case SetDarkMode(enabled) => s.(darkMode := enabled)
    case ShowNotification(message, severity) =>
      s.(notification := s.notification.(open := true, message := message, severity := severity))
    case HideNotification => s.(notification := s.notification.(open := false))
    case OpenModal(kind, data) => s.(modal := s.modal.(open := true, kind := Some(kind), data := Or(data, Null)))
    case CloseModal => s.(modal := s.modal.(open := false, kind := None, data := Null))
  }

  /** Toggling a flag twice gives back the state it started from. */
  lemma ToggleTwice(s: UiState)
    ensures Reduce(Reduce(s, ToggleSidebar), ToggleSidebar) == s
    ensures Reduce(Reduce(s, ToggleDarkMode), ToggleDarkMode) == s
  {
    var once := Reduce(s, ToggleSidebar);
    assert Reduce(once, ToggleSidebar).sidebarOpen == s.sidebarOpen;
    var dark := Reduce(s, ToggleDarkMode);
    assert Reduce(dark, ToggleDarkMode).darkMode == s.darkMode;
  }

  /** Setting a flag, or closing the modal, a second time changes nothing. */
  lemma SetIsIdempotent(s: UiState, a: UiAction)
    requires a.SetSidebarOpen? || a.SetDarkMode? || a.HideNotification? || a.CloseModal?
    ensures Reduce(Reduce(s, a), a) == Reduce(s, a)
  {
  }

  /** Hiding a shown notification and showing it again with the same text
      gives back the shown state. */
  lemma HideThenShowRestores(s: UiState, message: string, severity: Severity)
    ensures var shown := Reduce(s, ShowNotification(message, severity));
            Reduce(Reduce(shown, HideNotification), ShowNotification(message, severity)) == shown
  {
  }

  /** Opening then closing the modal leaves it as it was at start-up, whatever
      was open before. */
  lemma OpenThenCloseResetsModal(s: UiState, kind: string, data: JsValue)
    ensures Reduce(Reduce(s, OpenModal(kind, data)), CloseModal) == s.(modal := ClosedModal)
  {
  }

  class UiStore {
    var sidebarOpen: bool
    var darkMode: bool
    var notification: Notification
    var modal: Modal

    function State(): UiState
      reads this
    {
      UiState(sidebarOpen, darkMode, notification, modal)
    }

    constructor ()
      ensures State() == InitialState
    {
      sidebarOpen := false;
      darkMode := false;
      notification := Notification(false, "", Info);
      modal := Modal(false, None, Null);
    }

    method ToggleSidebar()
      modifies this
      ensures State() == Reduce(old(State()), UiAction.ToggleSidebar)
    {
      sidebarOpen := !sidebarOpen;
    }

    method SetSidebarOpen(open: bool)
      modifies this
      ensures State() == Reduce(old(State()), UiAction.SetSidebarOpen(open))
    {
      sidebarOpen := open;
    }

    method ToggleDarkMode()
      modifies this
      ensures State() == Reduce(old(State()), UiAction.ToggleDarkMode)
    {
      darkMode := !darkMode;
    }

    method SetDarkMode(enabled: bool)
      modifies this
      ensures State() == Reduce(old(State()), UiAction.SetDarkMode(enabled))
    {
      darkMode := enabled;
    }

    method ShowNotification(message: string, severity: Severity)
      modifies this
      ensures State() == Reduce(old(State()), UiAction.ShowNotification(message, severity))
    {
      notification := notification.(open := true);
      notification := notification.(message := message);
      notification := notification.(severity := severity);
    }

    method HideNotification()
      modifies this
      ensures State() == Reduce(old(State()), UiAction.HideNotification)
    {
      notification := notification.(open := false);
    }

    method OpenModal(kind: string, data: JsValue)
      modifies this
      ensures State() == Reduce(old(State()), UiAction.OpenModal(kind, data))
    {
      modal := modal.(open := true);
      modal := modal.(kind := Some(kind));
      modal := modal.(data := if Truthy(data) then data else Null);
    }

    method CloseModal()
      modifies this
      ensures State() == Reduce(old(State()), UiAction.CloseModal)
    {
      modal := modal.(open := false);
      modal := modal.(kind := None);
      modal := modal.(data := Null);
    }
  }
}
