/** The file helpers: the display name derived from a path, and loading, saving
    under a new path and saving in place, each a straight-line function of what
    the dialog, the read and the write return. Each result records the effect
    it performed (the path read, the write issued) beside what it returns or
    throws. */
module FileOperations {
  import opened Js
  import opened JsStrings
  import EditorStore

  const Untitled := EditorStore.Untitled
  const LoadFailedPrefix := "Failed to load file: "
  const SaveFailedPrefix := "Failed to save file: "

  /** Both path separators: `/` and `\`. */
  const PathSeparators: set<char> := {'/', '\\'}

  datatype FileData = FileData(path: string, content: string, name: string)

  /** How the read of the chosen file settles. */
  datatype ReadOutcome = ReadOk(content: string) | ReadFailed(cause: Thrown)

  /** How a write settles. */
  datatype WriteOutcome = WriteOk | WriteFailed(cause: Thrown)

  /** A write issued to the file system. */
  datatype Write = Write(path: string, content: string)

  datatype LoadOutcome = LoadOutcome(readPath: Option<string>, result: Result<Option<FileData>, Thrown>)
  datatype SaveAsOutcome = SaveAsOutcome(dialogDefault: Option<string>, written: Option<Write>, result: Result<Option<string>, Thrown>)
  datatype SaveOutcome = SaveOutcome(written: Write, result: Result<(), Thrown>)

  // ---------------------------------------------------------------------------
  // names

  /** `path.split(/[\\/]/).pop()`: what follows the last separator. */
  function LastSegment(path: string): (seg: string)
    ensures IsSuffix(seg, path)
    ensures Free(seg, PathSeparators)
    ensures |seg| == |path| || path[|path| - |seg| - 1] in PathSeparators
  {
    SplitLast(path, PathSeparators);
    var parts := Split(path, PathSeparators);
    parts[|parts| - 1]
  }

  /** The display name of a path: its last segment, or "untitled.md" when that
      segment is empty (a path ending in a separator, or the empty path). */
  function BaseName(path: string): (name: string)
    ensures name != ""
    ensures Free(name, PathSeparators)
    ensures name == LastSegment(path) || (LastSegment(path) == "" && name == Untitled)
  {
    if LastSegment(path) == "" then Untitled else LastSegment(path)
  }

  /** A path without separators is its own name. */
  lemma BaseNameOfPlainName(path: string)
    requires path != "" && Free(path, PathSeparators)
    ensures BaseName(path) == path
  {
    SplitFree(path, PathSeparators);
  }

  /** The name is the part after the final separator, taken whole. */
  lemma BaseNameAfterSeparator(dir: string, sep: char, name: string)
    requires sep in PathSeparators
    requires name != "" && Free(name, PathSeparators)
    ensures BaseName(dir + [sep] + name) == name
  {
    var path := dir + [sep] + name;
    SplitLastAfter(dir, sep, name, PathSeparators);
    SplitFree(name, PathSeparators);
    var parts := Split(path, PathSeparators);
    assert parts[|parts| - 1] == name;
    assert LastSegment(path) == name;
  }

  // ---------------------------------------------------------------------------
  // load

  /** No chosen path (cancelled, or the empty string): nothing is read and
      nothing is returned. Otherwise the file is read; its text comes back with
      the path and the name derived from it, and a failed read throws an `Error`
      whose message names the cause. */
  function LoadFile(picked: Option<string>, read: ReadOutcome): (o: LoadOutcome)
    ensures !Truthy(picked) ==> o == LoadOutcome(None, Success(None))
    ensures Truthy(picked) ==> o.readPath == picked
    ensures Truthy(picked) && read.ReadOk? ==>
              o.result == Success(Some(FileData(picked.value, read.content, BaseName(picked.value))))
    ensures Truthy(picked) && read.ReadFailed? ==>
              o.result == Failure(ErrorObject(LoadFailedPrefix + Stringify(read.cause)))
  {
    if !Truthy(picked) then LoadOutcome(None, Success(None))
    else
      var path := picked.value;
      match read
      case ReadFailed(cause) => LoadOutcome(picked, Failure(ErrorObject(LoadFailedPrefix + Stringify(cause))))
      case ReadOk(content) => LoadOutcome(picked, Success(Some(FileData(path, content, BaseName(path)))))
  }

  // ---------------------------------------------------------------------------
  // save

  /** The name the save dialog proposes: the given default when it is a
      non-empty string, "untitled.md" otherwise. */
  function DialogDefaultPath(defaultName: Option<string>): (path: string)
    ensures path != ""
    ensures Truthy(defaultName) ==> path == defaultName.value
    ensures !Truthy(defaultName) ==> path == Untitled
  {
    OrElse(defaultName, Untitled)
  }

  /** The dialog is offered the last segment of the current path (nothing when
      there is none). Cancelling writes nothing and returns nothing; otherwise
      exactly the text is written to the chosen path, which is returned, and a
      failed write throws an `Error` whose message names the cause. */
  function SaveFileAs(content: string, currentPath: Option<string>, picked: Option<string>, write: WriteOutcome): (o: SaveAsOutcome)
    ensures o.dialogDefault == if currentPath.Some? then Some(LastSegment(currentPath.value)) else None
    ensures !Truthy(picked) ==> o.written == None && o.result == Success(None)
    ensures Truthy(picked) ==> o.written == Some(Write(picked.value, content))
    ensures Truthy(picked) && write.WriteOk? ==> o.result == Success(picked)
    ensures Truthy(picked) && write.WriteFailed? ==>
              o.result == Failure(ErrorObject(SaveFailedPrefix + Stringify(write.cause)))
  {
    var defaultName := if currentPath.Some? then Some(LastSegment(currentPath.value)) else None;
    if !Truthy(picked) then SaveAsOutcome(defaultName, None, Success(None))
    else
      var written := Some(Write(picked.value, content));
      match write
      case WriteFailed(cause) => SaveAsOutcome(defaultName, written, Failure(ErrorObject(SaveFailedPrefix + Stringify(cause))))
      case WriteOk => SaveAsOutcome(defaultName, written, Success(picked))
  }

  /** What the save dialog ends up proposing is the display name of the current
      path, and "untitled.md" for a document without one. */
  lemma SaveDialogProposesBaseName(content: string, currentPath: Option<string>, picked: Option<string>, write: WriteOutcome)
    ensures DialogDefaultPath(SaveFileAs(content, currentPath, picked, write).dialogDefault)
            == if currentPath.Some? then BaseName(currentPath.value) else Untitled
  {
  }

  /** Writes exactly the text to the given path; a failed write throws an
      `Error` whose message names the cause. */
  function SaveExistingFile(path: string, content: string, write: WriteOutcome): (o: SaveOutcome)
    ensures o.written == Write(path, content)
    ensures write.WriteOk? ==> o.result.Success?
    ensures write.WriteFailed? ==> o.result == Failure(ErrorObject(SaveFailedPrefix + Stringify(write.cause)))
  {
    match write
    case WriteFailed(cause) => SaveOutcome(Write(path, content), Failure(ErrorObject(SaveFailedPrefix + Stringify(cause))))
    case WriteOk => SaveOutcome(Write(path, content), Success(()))
  }

  // ---------------------------------------------------------------------------
  // path and name pairing

  /** The document's name is the one derived from its path, or "untitled.md"
      when it has no path. */
  predicate Paired(d: EditorStore.Document) {
    match d.filePath
    case None => d.fileName == Untitled
    case Some(p) => d.fileName == BaseName(p)
  }

  /** A loaded file, handed to the store, leaves path and name paired; so does a
      new file or a reset, whatever the state before. */
  lemma LoadNewResetKeepPairing(d: EditorStore.Document, picked: Option<string>, read: ReadOutcome)
    ensures var o := LoadFile(picked, read);
            o.result.Success? && o.result.value.Some? ==>
              var f := o.result.value.value;
              Paired(EditorStore.Apply(d, EditorStore.LoadFile(f.path, f.content, f.name)))
    ensures Paired(EditorStore.Apply(d, EditorStore.NewFile))
    ensures Paired(EditorStore.Apply(d, EditorStore.Reset))
  {
  }

  /** The store does not keep path and name together: setting a path on a new
      document leaves the name "untitled.md". */
  lemma SetFilePathCanBreakPairing()
    ensures Paired(EditorStore.Initial())
    ensures !Paired(EditorStore.Apply(EditorStore.Initial(), EditorStore.SetFilePath(Some("/docs/a.md"))))
  {
    BaseNameAfterSeparator("/docs", '/', "a.md");
  }

  /** Opening "/a.md" holding "hello" yields that path and text under the name
      "a.md", a clean document. */
  lemma OpenScenario(d: EditorStore.Document)
    ensures LoadFile(Some("/a.md"), ReadOk("hello")).result == Success(Some(FileData("/a.md", "hello", "a.md")))
    ensures EditorStore.Apply(d, EditorStore.LoadFile("/a.md", "hello", "a.md"))
            == EditorStore.Document("hello", Some("/a.md"), "a.md", false)
  {
    RootFileName();
  }

  lemma RootFileName()
    ensures BaseName("/a.md") == "a.md"
  {
    assert "" + ['/'] + "a.md" == "/a.md";
    BaseNameAfterSeparator("", '/', "a.md");
  }
}
