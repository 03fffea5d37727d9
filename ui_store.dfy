/** src/store/uiStore.ts: theme, the two modal flags and the toast list. The `dark` class on
    the document, persistence and the four-second auto-removal timer are outside this model. */
module UIStore {
  import opened Lists

  /** `Theme` of src/types/index.ts. */
  datatype Theme = Dark | Light

  /** `Toast['type']`. */
  datatype ToastKind = Success | Error | Info

  datatype Toast = Toast(id: string, message: string, kind: ToastKind)

  /** The theme `toggleTheme` switches to: `dark` goes to `light`, anything else to `dark`. */
  function Toggled(theme: Theme): (r: Theme)
    ensures r != theme
  {
    if theme == Dark then Light else Dark
  }

  /** Toggling twice restores the theme. */
  lemma ToggleInvolution(theme: Theme)
    ensures Toggled(Toggled(theme)) == theme
  {
  }

  /** `toasts.filter((toast) => toast.id !== id)`. */
  function WithoutToast(toasts: seq<Toast>, id: string): (r: seq<Toast>)
    ensures forall i :: 0 <= i < |r| ==> r[i].id != id && r[i] in toasts
    ensures forall i :: 0 <= i < |toasts| && toasts[i].id != id ==> toasts[i] in r
    ensures (forall i :: 0 <= i < |toasts| ==> toasts[i].id != id) ==> r == toasts
  {
    Filter(toasts, (t: Toast) => t.id != id)
  }

  /** Removing a toast from a longer list is removing it from each part. */
  lemma WithoutToastAppend(a: seq<Toast>, b: seq<Toast>, id: string)
    ensures WithoutToast(a + b, id) == WithoutToast(a, id) + WithoutToast(b, id)
  {
    FilterAppend(a, b, (t: Toast) => t.id != id);
  }

  /** A toast added and then removed by its own id leaves a list of fresh ids as it was. */
  lemma AddThenRemove(toasts: seq<Toast>, toast: Toast)
    requires forall i :: 0 <= i < |toasts| ==> toasts[i].id != toast.id
    ensures WithoutToast(toasts + [toast], toast.id) == toasts
  {
    WithoutToastAppend(toasts, [toast], toast.id);
  }

  class UIState {
    var theme: Theme
    var isSaveModalOpen: bool
    var isLoadModalOpen: bool
    var toasts: seq<Toast>

    /** Initial state: dark theme, both modals closed, no toasts. */
    constructor ()
      ensures theme == Dark && !isSaveModalOpen && !isLoadModalOpen && toasts == []
    {
      theme := Dark;
      isSaveModalOpen := false;
      isLoadModalOpen := false;
      toasts := [];
    }

    method SetTheme(newTheme: Theme)
      modifies this
      ensures theme == newTheme
      ensures isSaveModalOpen == old(isSaveModalOpen) && isLoadModalOpen == old(isLoadModalOpen)
      ensures toasts == old(toasts)
    {
      theme := newTheme;
    }

    method ToggleTheme()
      modifies this
      ensures theme == Toggled(old(theme))
      ensures isSaveModalOpen == old(isSaveModalOpen) && isLoadModalOpen == old(isLoadModalOpen)
      ensures toasts == old(toasts)
    {
      var newTheme := if theme == Dark then Light else Dark;
      SetTheme(newTheme);
    }

    method OpenSaveModal()
      modifies this
      ensures isSaveModalOpen
      ensures theme == old(theme) && isLoadModalOpen == old(isLoadModalOpen) && toasts == old(toasts)
    {
      isSaveModalOpen := true;
    }

    method CloseSaveModal()
      modifies this
      ensures !isSaveModalOpen
      ensures theme == old(theme) && isLoadModalOpen == old(isLoadModalOpen) && toasts == old(toasts)
    {
      isSaveModalOpen := false;
    }

    method OpenLoadModal()
      modifies this
      ensures isLoadModalOpen
      ensures theme == old(theme) && isSaveModalOpen == old(isSaveModalOpen) && toasts == old(toasts)
    {
      isLoadModalOpen := true;
    }

    method CloseLoadModal()
      modifies this
      ensures !isLoadModalOpen
      ensures theme == old(theme) && isSaveModalOpen == old(isSaveModalOpen) && toasts == old(toasts)
    {
      isLoadModalOpen := false;
    }

    /** `addToast(message, type = 'info')`, with the generated id passed in. */
    method AddToast(id: string, message: string, kind: ToastKind := Info)
      modifies this
      ensures toasts == old(toasts) + [Toast(id, message, kind)]
      ensures theme == old(theme)
      ensures isSaveModalOpen == old(isSaveModalOpen) && isLoadModalOpen == old(isLoadModalOpen)
    {
      toasts := toasts + [Toast(id, message, kind)];
    }

    method RemoveToast(id: string)
      modifies this
      ensures toasts == WithoutToast(old(toasts), id)
      ensures theme == old(theme)
      ensures isSaveModalOpen == old(isSaveModalOpen) && isLoadModalOpen == old(isLoadModalOpen)
    {
      toasts := WithoutToast(toasts, id);
    }

    method ClearToasts()
      modifies this
      ensures toasts == []
      ensures theme == old(theme)
      ensures isSaveModalOpen == old(isSaveModalOpen) && isLoadModalOpen == old(isLoadModalOpen)
    {
      toasts := [];
    }
  }
}
