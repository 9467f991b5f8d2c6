/** The toolbar's "New File" button: a dirty document is replaced only after the
    user confirms; a clean one is replaced without asking. The confirmation
    dialog's answer is a parameter. */
module Toolbar {
  import opened EditorStore

  /** Asks for confirmation exactly when the document has unsaved changes; a
      declined confirmation leaves the store as it was, otherwise the store
      holds a new, clean, untitled document. `asked` says whether the dialog
      was shown. */
  method HandleNewFile(store: EditorState, confirmed: bool) returns (asked: bool)
    modifies store
    ensures asked == old(store.hasUnsavedChanges)
    ensures asked && !confirmed ==> unchanged(store)
    ensures !asked || confirmed ==> store.Snapshot() == Apply(old(store.Snapshot()), NewFile)
  {
    asked := store.hasUnsavedChanges;
    if asked && !confirmed {
      return;
    }
    store.NewFile();
  }

  /** Once the guard has replaced the document, pressing "New File" again
      right away asks nothing, whatever the answers would be. */
  method PressTwice(store: EditorState, firstAnswer: bool, secondAnswer: bool) returns (firstAsked: bool, secondAsked: bool)
    modifies store
    ensures firstAsked == old(store.hasUnsavedChanges)
    ensures !firstAsked || firstAnswer ==> !secondAsked && store.Snapshot() == Initial()
  {
    firstAsked := HandleNewFile(store, firstAnswer);
    secondAsked := HandleNewFile(store, secondAnswer);
  }
}
