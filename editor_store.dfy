/** The document store: one shared record holding the open document's text, its
    path (absent for a new document), its display name and the dirty flag. Every
    action overwrites a fixed set of fields. `Document` and `Apply` describe the
    actions on values; the class `EditorState` is the shared record whose
    methods perform them in place. */
module EditorStore {
  import opened Js

  const Untitled := "untitled.md"

  datatype Document = Document(content: string, filePath: Option<string>, fileName: string, hasUnsavedChanges: bool)

  /** The state the store starts in and returns to on `reset`. */
  function Initial(): Document {
    Document("", None, Untitled, false)
  }

  /** The store's actions. */
  datatype Action =
    | SetContent(content: string)
    | SetFilePath(newPath: Option<string>)
    | SetFileName(name: string)
    | SetHasUnsavedChanges(flag: bool)
    | NewFile
    | LoadFile(path: string, content: string, name: string)
    | Reset

  /** The fields each action overwrites; the others keep their values. */
  function Apply(d: Document, a: Action): (r: Document)
    ensures r.hasUnsavedChanges == if a.SetContent? || a == SetHasUnsavedChanges(true) then true
                                   else if Clears(a) then false
                                   else d.hasUnsavedChanges
    ensures r.content != d.content ==> a.SetContent? || Clears(a)
    ensures a.NewFile? || a.Reset? ==> r == Initial()
    ensures a.LoadFile? ==> r.filePath == Some(a.path) && r.fileName == a.name && r.content == a.content
  {
    match a
    case SetContent(c) => d.(content := c, hasUnsavedChanges := true)
    case SetFilePath(p) => d.(filePath := p)
    case SetFileName(n) => d.(fileName := n)
    case SetHasUnsavedChanges(b) => d.(hasUnsavedChanges := b)
    case NewFile => Document("", None, Untitled, false)
    case LoadFile(p, c, n) => Document(c, Some(p), n, false)
    case Reset => Initial()
  }

  /** The actions, applied in order. */
  function Run(d: Document, actions: seq<Action>): Document
    decreases |actions|
  {
    if |actions| == 0 then d else Run(Apply(d, actions[0]), actions[1..])
  }

  /** The actions that can leave the document clean. */
  predicate Clears(a: Action) {
    a.NewFile? || a.LoadFile? || a.Reset? || a == SetHasUnsavedChanges(false)
  }

  /** A new file, and a reset, forget everything about the previous document and
      give the same state as a freshly started store. */
  lemma NewFileForgetsPrevious(d: Document)
    ensures Apply(d, NewFile) == Initial()
    ensures Apply(d, Reset) == Apply(d, NewFile)
  {
  }

  /** Setting the same text twice is the same as setting it once. */
  lemma SetContentIdempotent(d: Document, c: string)
    ensures Apply(Apply(d, SetContent(c)), SetContent(c)) == Apply(d, SetContent(c))
  {
  }

  /** A dirty document stays dirty through any actions none of which clears it. */
  lemma {:induction false} DirtyUntilCleared(d: Document, actions: seq<Action>)
    requires d.hasUnsavedChanges
    requires forall j | 0 <= j < |actions| :: !Clears(actions[j])
    ensures Run(d, actions).hasUnsavedChanges
    decreases |actions|
  {
    if |actions| > 0 {
      assert !Clears(actions[0]);
      assert forall j | 0 <= j < |actions| - 1 :: actions[1..][j] == actions[j + 1];
      DirtyUntilCleared(Apply(d, actions[0]), actions[1..]);
    }
  }

  /** After an edit, the document is dirty unless a later action clears it:
      only a new file, a load, a reset or an explicit clear of the flag can. */
  lemma {:induction false} DirtyAfterLastEdit(d: Document, actions: seq<Action>, i: nat)
    requires i < |actions| && actions[i].SetContent?
    requires forall j | i < j < |actions| :: !Clears(actions[j])
    ensures Run(d, actions).hasUnsavedChanges
    decreases i
  {
    assert forall j | 0 <= j < |actions| - 1 :: actions[1..][j] == actions[j + 1];
    if i == 0 {
      DirtyUntilCleared(Apply(d, actions[0]), actions[1..]);
    } else {
      DirtyAfterLastEdit(Apply(d, actions[0]), actions[1..], i - 1);
    }
  }

  /** The shared store. */
  class EditorState {
    var content: string
    var filePath: Option<string>
    var fileName: string
    var hasUnsavedChanges: bool

    function Snapshot(): Document
      reads this
    {
      Document(content, filePath, fileName, hasUnsavedChanges)
    }

    constructor ()
      ensures Snapshot() == Initial()
    {
      content, filePath, fileName, hasUnsavedChanges := "", None, Untitled, false;
    }

    /** Replaces the text and marks the document dirty; path and name stay. */
    method SetContent(c: string)
      modifies this
      ensures content == c && hasUnsavedChanges
      ensures filePath == old(filePath) && fileName == old(fileName)
      ensures Snapshot() == Apply(old(Snapshot()), Action.SetContent(c))
    {
      content, hasUnsavedChanges := c, true;
    }

    /** Changes the path only; the name is not adjusted to match. */
    method SetFilePath(p: Option<string>)
      modifies this
      ensures filePath == p
      ensures content == old(content) && fileName == old(fileName) && hasUnsavedChanges == old(hasUnsavedChanges)
      ensures Snapshot() == Apply(old(Snapshot()), Action.SetFilePath(p))
    {
      filePath := p;
    }

    /** Changes the name only; the path is not adjusted to match. */
    method SetFileName(n: string)
      modifies this
      ensures fileName == n
      ensures content == old(content) && filePath == old(filePath) && hasUnsavedChanges == old(hasUnsavedChanges)
      ensures Snapshot() == Apply(old(Snapshot()), Action.SetFileName(n))
    {
      fileName := n;
    }

    method SetHasUnsavedChanges(b: bool)
      modifies this
      ensures hasUnsavedChanges == b
      ensures content == old(content) && filePath == old(filePath) && fileName == old(fileName)
      ensures Snapshot() == Apply(old(Snapshot()), Action.SetHasUnsavedChanges(b))
    {
      hasUnsavedChanges := b;
    }

    /** An empty, untitled, clean document, whatever came before. */
    method NewFile()
      modifies this
      ensures Snapshot() == Initial()
      ensures Snapshot() == Apply(old(Snapshot()), Action.NewFile)
    {
      content, filePath, fileName, hasUnsavedChanges := "", None, Untitled, false;
    }

    /** All four fields at once: the given path, text and name, and clean. */
    method LoadFile(p: string, c: string, n: string)
      modifies this
      ensures Snapshot() == Document(c, Some(p), n, false)
      ensures Snapshot() == Apply(old(Snapshot()), Action.LoadFile(p, c, n))
    {
      filePath, content, fileName, hasUnsavedChanges := Some(p), c, n, false;
    }

    /** Back to the initial state. */
    method Reset()
      modifies this
      ensures Snapshot() == Initial()
      ensures Snapshot() == Apply(old(Snapshot()), Action.Reset)
    {
      content, filePath, fileName, hasUnsavedChanges := "", None, Untitled, false;
    }
  }
}
