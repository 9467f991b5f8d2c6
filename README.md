# MarkMind editor core in Dafny

MarkMind is a desktop Markdown editor: a source pane and a rendered preview that
scroll together, files opened and saved through the host, and an assistant that
asks a remote language model to continue, improve or summarise the document.
This project models the editor's core and proves properties of it:

- the document store (`EditorStore`): text, path, display name and dirty flag,
  with its seven actions, as a value-level `Document`/`Apply`/`Run` and as the
  shared `EditorState` object whose methods perform the same actions in place;
- the file helpers (`FileOperations`): the display name derived from a path,
  loading a file, saving under a new path and saving in place, as functions of
  what the dialogs and the file system return;
- the assistant service (`Gemini`): the client that exists only after
  initialisation with a non-empty key, the model name, the prompt composition,
  the usage mapping with its first-defined-key scan, and the error mapping;
- the assistant operations (`AiOperations`): lazy initialisation from the stored
  key, the "last N lines" context, and the three fixed prompts;
- the assistant panel (`AiActions`): loading flag, error and staged suggestion,
  the three request handlers, accept and dismiss, the button conditions;
- the API-key panel (`ApiKeySetup`): checking for a stored key on mount, saving,
  removing, changing the key, and the banner and button conditions;
- the toolbar's new-file guard (`Toolbar`);
- the scroll synchroniser (`MarkdownEditor`): the proportional mapping over exact
  reals, and the two handlers that move the other pane.

Two modules hold the JavaScript notions the code relies on: `Js` (optional
values, thrown values, truthiness of strings, `String(x)`) and `JsStrings`
(`split`, `join`, `slice` with a negative start and `trim` with JavaScript's
whitespace set).

Every await is a parameter: the dialog's answer, the outcome of a read or a
write, the key store's answers, the remote model's response or failure, the
user's answer to a confirmation. A handler that awaits is split into the state
while the call is in flight (`Begin`, `BeginSave`, `BeginRemove`) and the state
after it settles.

Some of the code's behaviour is easy to misread; the model keeps it as written:

- The scroll mapping uses `range || 1` for the source and `range || 0` for the
  target, not a floor at 1 and at 0. A source whose range is exactly 0 hands on
  its raw position as the fraction (in a browser that position is 0), and were
  a target's range negative, `|| 0` would not floor it
  (`MarkdownEditor.NegativeRangeNotFloored`).
- The store does not keep path and name together: `setFilePath` and
  `setFileName` each change one field (`FileOperations.SetFilePathCanBreakPairing`).
- Nothing in the code clears the dirty flag after a save; only a new file, a
  load, a reset or an explicit `setHasUnsavedChanges(false)` does.
- Starting a request does not clear the staged suggestion, and nothing in the
  panel itself refuses a second request while one is in flight; only the
  disabled buttons do.
- Improve and summarise are enabled for any non-empty document, but their
  handlers reject a document that is all whitespace
  (`AiActions.ButtonAndGuardDisagreeOnBlankText`).

## Model

| member | source | states |
|---|---|---|
| JsStrings.Split | src/lib/aiOperations.ts:50 | `split` always yields at least one piece and no piece holds a separator |
| JsStrings.JoinSplit | src/lib/aiOperations.ts:50-55 | joining the pieces of a split on the same character gives back the text |
| JsStrings.SplitJoin | src/lib/aiOperations.ts:54-55 | splitting a join of separator-free pieces gives back the pieces |
| JsStrings.JoinTailIsSuffix | src/lib/aiOperations.ts:54-55 | joining the last pieces of a split gives a suffix of the text |
| JsStrings.SplitFree | src/lib/fileOperations.ts:19 | a text without separators splits into itself alone |
| JsStrings.SplitLastAfter | src/lib/fileOperations.ts:19 | what follows the final separator determines the last piece |
| JsStrings.SplitLast | src/lib/fileOperations.ts:19 | the last piece is a suffix, the whole text or preceded by a separator |
| JsStrings.SliceFrom | src/lib/aiOperations.ts:54 | `slice(start)` with a negative start keeps the last `-start` elements (all when fewer), a suffix |
| JsStrings.TrimStart | src/components/AIActions/AIActions.tsx:34 | the result is a suffix starting with a non-whitespace character, after only whitespace |
| JsStrings.TrimEnd | src/components/AIActions/AIActions.tsx:34 | the result is a prefix ending with a non-whitespace character, before only whitespace |
| JsStrings.Trim | src/components/api-setup/APIKeySetup.tsx:26 | `trim()` is empty exactly when the text is all whitespace, and never starts or ends with whitespace |
| JsStrings.TrimEmptyExactlyWhenBlank | src/components/AIActions/AIActions.tsx:34 | `!content.trim()` holds exactly for all-whitespace text |
| Gemini.FullPrompt | src/services/geminiService.ts:40-42 | a non-empty context precedes the prompt after a blank line; otherwise the prompt alone |
| Gemini.FirstDefined | src/services/geminiService.ts:58-64 | no value exactly when every key is absent or null; otherwise the value of the first key that is neither |
| Gemini.FirstDefinedAt | src/services/geminiService.ts:58-64 | the value returned is that of the first present, non-null key, whatever later keys hold |
| Gemini.GetFirst | src/services/geminiService.ts:58-64 | the loop returns what `FirstDefined` describes |
| Gemini.MapUsage | src/services/geminiService.ts:53-109 | usage is reported exactly when metadata is present and all three counts are finite, with those counts |
| Gemini.HandleError | src/services/geminiService.ts:148-162 | an `Error` keeps its message under GEMINI_ERROR; anything else gets the unknown-error message under UNKNOWN_ERROR; the cause is the details |
| Gemini.AsThrown | src/services/geminiService.ts:115-118 | the thrown error record is a plain object with the record's message and code |
| Gemini.StreamFailure | src/services/geminiService.ts:142-144 | a stream failure always maps to the unknown-error message and code, with the stringified cause as details |
| Gemini.Settled | src/services/geminiService.ts:38-118 | a remote failure throws a plain record with the mapped message and code; a response yields its text (or "") and the mapped usage |
| Gemini.GeminiService.constructor | src/services/geminiService.ts:9-11 | no client, model "gemini-3-flash-preview" |
| Gemini.GeminiService.Initialize | src/services/geminiService.ts:14-24 | an empty key throws and changes nothing; otherwise a client from the key, and the model replaced only by a non-empty configured model; initialised afterwards exactly when the key is non-empty or it already was |
| Gemini.GeminiService.IsInitialized | src/services/geminiService.ts:26-28 | a client is held; `Initialize` with a key sets it, `Reset` clears it, and `Complete` throws its not-initialised error exactly when it is false |
| Gemini.GeminiService.Reset | src/services/geminiService.ts:164-166 | the client is dropped, the model stays; the service is no longer initialised |
| Gemini.GeminiService.Complete | src/services/geminiService.ts:31-119 | without a client, throws before any remote call; with one, sends the composed prompt to the configured model and returns the settled result; the not-initialised error is thrown exactly when the service is not initialised |
| EditorStore.Apply | src/store/editorStore.ts:33-57 | only editing the text or setting the flag makes the document dirty; a new file, a load, a reset or clearing the flag leaves it clean; anything else keeps the flag; only an edit or a clearing action changes the text; a new file and a reset give the initial document; a load sets text, path and name together |
| EditorStore.NewFileForgetsPrevious | src/store/editorStore.ts:41-47 | a new file gives the initial state whatever came before, and reset equals new file |
| EditorStore.SetContentIdempotent | src/store/editorStore.ts:33 | setting the same text twice equals setting it once |
| EditorStore.DirtyUntilCleared | src/store/editorStore.ts:33-57 | a dirty document stays dirty through actions none of which can clear the flag |
| EditorStore.DirtyAfterLastEdit | src/store/editorStore.ts:33-57 | after an edit the document is dirty unless a later new file, load, reset or explicit clear |
| EditorStore.EditorState.constructor | src/store/editorStore.ts:21-30 | empty text, no path, "untitled.md", clean |
| EditorStore.EditorState.SetContent | src/store/editorStore.ts:33 | new text and dirty; path and name stay |
| EditorStore.EditorState.SetFilePath | src/store/editorStore.ts:35 | new path only; the name is not adjusted |
| EditorStore.EditorState.SetFileName | src/store/editorStore.ts:37 | new name only; the path is not adjusted |
| EditorStore.EditorState.SetHasUnsavedChanges | src/store/editorStore.ts:39 | the flag only |
| EditorStore.EditorState.NewFile | src/store/editorStore.ts:41-47 | the initial state, whatever came before |
| EditorStore.EditorState.LoadFile | src/store/editorStore.ts:49-55 | all four fields at once: given path, text and name, clean |
| EditorStore.EditorState.Reset | src/store/editorStore.ts:57 | the initial state |
| FileOperations.LastSegment | src/lib/fileOperations.ts:36 | what follows the last `/` or `\`: a separator-free suffix, the whole path or preceded by a separator |
| FileOperations.BaseName | src/lib/fileOperations.ts:19 | a non-empty, separator-free name: the last segment, or "untitled.md" when that is empty |
| FileOperations.BaseNameOfPlainName | src/lib/fileOperations.ts:19 | a path without separators is its own name |
| FileOperations.BaseNameAfterSeparator | src/lib/fileOperations.ts:19 | the name is the whole part after the final separator |
| FileOperations.LoadFile | src/lib/fileOperations.ts:10-30 | no chosen path: nothing read, nothing returned; else the read text with the path and its base name, or an `Error` naming the cause |
| FileOperations.DialogDefaultPath | src/lib/dialogs.ts:28 | the proposed name is never empty: the given default when it is a non-empty string, "untitled.md" otherwise |
| FileOperations.SaveFileAs | src/lib/fileOperations.ts:32-51 | the dialog gets the current path's last segment; cancel writes nothing; otherwise exactly the text is written to the chosen path, which is returned, or an `Error` naming the cause |
| FileOperations.SaveDialogProposesBaseName | src/lib/dialogs.ts:28 | the dialog ends up proposing the current path's display name, "untitled.md" without a path |
| FileOperations.SaveExistingFile | src/lib/fileOperations.ts:53-63 | exactly the text is written to the path; a failed write throws an `Error` naming the cause |
| FileOperations.LoadNewResetKeepPairing | src/store/editorStore.ts:41-57 | a loaded file handed to the store, a new file and a reset each leave name and path paired |
| FileOperations.SetFilePathCanBreakPairing | src/store/editorStore.ts:35 | setting a path on a new document leaves the name "untitled.md", unpaired |
| FileOperations.OpenScenario | src/lib/fileOperations.ts:10-30 | opening "/a.md" holding "hello" gives that text and path under the name "a.md", clean |
| AiOperations.LineCount | src/lib/aiOperations.ts:51 | `contextLines \|\| 10` is never 0: the requested count when it is non-zero, 10 when it is absent or 0 |
| AiOperations.Context | src/lib/aiOperations.ts:46-56 | the context is a suffix of the text whose lines are its last `contextLines \|\| 10` lines; a short text is its own context |
| AiOperations.ContextFacts | src/lib/aiOperations.ts:50-55 | the split/slice/join pipeline yields a suffix made of the last lines |
| AiOperations.ImprovePrompt | src/lib/aiOperations.ts:85 | the fixed instruction followed by exactly the text |
| AiOperations.SummarizePrompt | src/lib/aiOperations.ts:98 | the fixed instruction followed by exactly the text |
| AiOperations.ContinueRequestShape | src/lib/aiOperations.ts:70-79 | an empty document sends the bare prompt; otherwise its last lines, a blank line, then the prompt |
| AiOperations.InitializeAI | src/lib/aiOperations.ts:13-27 | true exactly when a non-empty key is stored, with a client from that key; otherwise the service is untouched |
| AiOperations.GenerateCompletion | src/lib/aiOperations.ts:32-65 | lazy initialisation; a missing key throws without a remote call; otherwise the prompt with optional context is sent and the text returned; a request is sent exactly when the service ends initialised |
| AiOperations.ContinueWriting | src/lib/aiOperations.ts:70-79 | sends the continue prompt with the last 20 lines as context |
| AiOperations.ImproveText | src/lib/aiOperations.ts:84-90 | sends the improve prompt for the text, without context |
| AiOperations.SummarizeText | src/lib/aiOperations.ts:95-103 | sends the summary prompt for the text when non-empty, the document otherwise |
| AiActions.ErrorText | src/components/AIActions/AIActions.tsx:26 | an `Error` shows its own message; any other thrown value shows the handler's fallback text |
| AiActions.IsBlank | src/components/AIActions/AIActions.tsx:34 | the guard `!content.trim()` holds exactly when every character is whitespace |
| AiActions.RemoteFailureShowsFallback | src/components/AIActions/AIActions.tsx:24-27 | a remote failure arrives as a plain record, so the panel shows the fallback text |
| AiActions.MissingKeyShowsItsMessage | src/lib/aiOperations.ts:39-42 | a missing key arrives as an `Error`, so its own message is shown |
| AiActions.AiActionsPanel.constructor | src/components/AIActions/AIActions.tsx:13-15 | not loading, no error, no suggestion |
| AiActions.AiActionsPanel.Begin | src/components/AIActions/AIActions.tsx:18-19 | loading, no error, previous suggestion kept; Continue disabled and the suggestion hidden while in flight |
| AiActions.AiActionsPanel.Settle | src/components/AIActions/AIActions.tsx:21-30 | not loading; success stages the text; failure shows the message or fallback and keeps the suggestion; Continue enabled again, and after a success the suggestion is shown exactly when the text is non-empty |
| AiActions.AiActionsPanel.HandleContinueWriting | src/components/AIActions/AIActions.tsx:17-31 | the request sent and the settled panel state for every outcome; the service's model name is kept |
| AiActions.AiActionsPanel.RequestImprovement | src/components/AIActions/AIActions.tsx:39-49 | once past the guard: the whole document is sent for improvement and the panel settles; the model name is kept |
| AiActions.AiActionsPanel.RequestSummary | src/components/AIActions/AIActions.tsx:58-68 | once past the guard: the document is sent for a summary and the panel settles; the model name is kept |
| AiActions.AiActionsPanel.HandleImprove | src/components/AIActions/AIActions.tsx:33-50 | all-whitespace text: error, no request and no outcome, loading and suggestion untouched; otherwise the improve request, its outcome and the settled state; the model name is kept |
| AiActions.AiActionsPanel.HandleSummarize | src/components/AIActions/AIActions.tsx:52-69 | all-whitespace text: error, no request and no outcome; otherwise the summary request, its outcome and the settled state; the model name is kept |
| AiActions.AiActionsPanel.HandleAcceptResponse | src/components/AIActions/AIActions.tsx:71-76 | a non-empty suggestion is appended after a blank line through the store's setter and cleared; otherwise nothing changes; no suggestion is shown afterwards |
| AiActions.AiActionsPanel.Dismiss | src/components/AIActions/AIActions.tsx:136 | the suggestion is dropped, nothing else changes; no suggestion is shown afterwards |
| AiActions.AiActionsPanel.ContinueDisabled | src/components/AIActions/AIActions.tsx:83 | Continue is disabled exactly while a request is in flight (see the two lemmas below) |
| AiActions.AiActionsPanel.ImproveDisabled | src/components/AIActions/AIActions.tsx:91 | Improve is disabled whenever Continue is and whenever the document is empty; an enabled Improve always has some text (possibly only whitespace) |
| AiActions.AiActionsPanel.SummarizeDisabled | src/components/AIActions/AIActions.tsx:99 | Summarize is disabled exactly when Improve is |
| AiActions.AiActionsPanel.SuggestionVisible | src/components/AIActions/AIActions.tsx:122 | a non-empty suggestion is staged and no request is in flight (see the two lemmas below) |
| AiActions.InFlightDisablesEveryButton | src/components/AIActions/AIActions.tsx:83-122 | while loading, Continue, Improve and Summarize are disabled for any document and no suggestion is shown |
| AiActions.SettledShowsStagedText | src/components/AIActions/AIActions.tsx:21-30 | after a settle, Continue is enabled, Improve and Summarize are enabled for non-empty text, and the suggestion shows exactly when the returned text (success) or the earlier suggestion (failure) is non-empty |
| AiActions.AcceptAppendsToCurrentText | src/components/AIActions/AIActions.tsx:71-76 | accepting keeps the current text as a prefix, ends with the suggestion, is dirty and keeps path and name |
| AiActions.ButtonAndGuardDisagreeOnBlankText | src/components/AIActions/AIActions.tsx:34-99 | every non-empty all-whitespace document leaves Improve and Summarize enabled on an idle panel, though both handlers' trim guards reject it |
| ApiKeySetup.ApiKeySetupPanel.constructor | src/components/api-setup/APIKeySetup.tsx:6-10 | empty input, no key, idle, no error, input hidden |
| ApiKeySetup.ApiKeySetupPanel.CheckExistingKey | src/components/api-setup/APIKeySetup.tsx:16-23 | `hasKey` is whether a key exists, and the service is initialised only when it does |
| ApiKeySetup.ApiKeySetupPanel.SetApiKeyInput | src/components/api-setup/APIKeySetup.tsx:102 | the typed key only |
| ApiKeySetup.ApiKeySetupPanel.ChangeKey | src/components/api-setup/APIKeySetup.tsx:67 | the input is shown, nothing else changes |
| ApiKeySetup.ApiKeySetupPanel.BeginSave | src/components/api-setup/APIKeySetup.tsx:31-32 | loading and no error during a save; input, save and remove disabled |
| ApiKeySetup.ApiKeySetupPanel.BeginRemove | src/components/api-setup/APIKeySetup.tsx:50 | loading during a remove; the error stays; input, save and remove disabled |
| ApiKeySetup.ApiKeySetupPanel.HandleSave | src/components/api-setup/APIKeySetup.tsx:25-46 | blank key: error, no store call; else the untrimmed key is saved; success initialises, records a key, hides and clears the input; failure only sets the error; ends idle with remove enabled |
| ApiKeySetup.ApiKeySetupPanel.HandleRemove | src/components/api-setup/APIKeySetup.tsx:48-60 | declined: nothing; else the delete is issued; success clears `hasKey`, failure sets the error; ends idle with remove enabled |
| ApiKeySetup.ApiKeySetupPanel.BannerShown | src/components/api-setup/APIKeySetup.tsx:62 | the "AI features enabled" banner is shown only when a key is stored, and never once the input has been asked for |
| ApiKeySetup.ApiKeySetupPanel.SaveDisabled | src/components/api-setup/APIKeySetup.tsx:109 | the save button is disabled exactly while loading or when the typed key is all whitespace |
| ApiKeySetup.ApiKeySetupPanel.RemoveDisabled | src/components/api-setup/APIKeySetup.tsx:105 | the remove button and the key input are disabled exactly while a save or remove is in flight |
| ApiKeySetup.InFlightDisablesKeyControls | src/components/api-setup/APIKeySetup.tsx:75-109 | while loading, the input and the remove and save buttons are disabled, whatever is typed |
| ApiKeySetup.SaveEnabledMeansGuardPasses | src/components/api-setup/APIKeySetup.tsx:109 | the save button is enabled only when the handler's guard passes |
| ApiKeySetup.RemoveKeepsService | src/components/api-setup/APIKeySetup.tsx:52-53 | removing the key leaves the service's client as it was |
| ApiKeySetup.SaveThenInitialize | src/components/api-setup/APIKeySetup.tsx:35-39 | a successful save with the store answering the key builds a client from the key as typed and shows the banner |
| Toolbar.HandleNewFile | src/components/toolbar/Toolbar.tsx:8-17 | asks exactly when dirty; declined leaves the store unchanged; otherwise a new file |
| Toolbar.PressTwice | src/components/toolbar/Toolbar.tsx:8-17 | once the guard has made a new file, an immediate second press asks nothing |
| MarkdownEditor.Denominator | src/components/editor/MarkdownEditor.tsx:24 | `range \|\| 1` is never 0: the range, or 1 when the range is 0 |
| MarkdownEditor.SyncedTop | src/components/editor/MarkdownEditor.tsx:24-28 | the target's position is to its range as the source's position is to the source's non-zero range; with a zero source range, the raw position times the target's range |
| MarkdownEditor.TopMapsToTop | src/components/editor/MarkdownEditor.tsx:25-28 | a source at the top puts the target at 0 |
| MarkdownEditor.BottomMapsToBottom | src/components/editor/MarkdownEditor.tsx:24-28 | a source at the bottom of a non-zero range puts the target at its full range |
| MarkdownEditor.FlatTargetStaysAtTop | src/components/editor/MarkdownEditor.tsx:28 | a target with zero range is put at 0 |
| MarkdownEditor.FlatSourcePassesPosition | src/components/editor/MarkdownEditor.tsx:24-25 | a source with zero range hands its raw position on as the fraction (0 in a browser) |
| MarkdownEditor.InRangeMapsInRange | src/components/editor/MarkdownEditor.tsx:24-28 | a position inside a positive source range lands inside a non-negative target range |
| MarkdownEditor.NegativeRangeNotFloored | src/components/editor/MarkdownEditor.tsx:28 | `|| 0` does not floor the target's range: a negative range with the source below its top would give a negative position |
| MarkdownEditor.RoundTrip | src/components/editor/MarkdownEditor.tsx:24-41 | mapping there and back with non-zero ranges restores the position |
| MarkdownEditor.EditorPanes.HandleEditorScroll | src/components/editor/MarkdownEditor.tsx:18-29 | the preview gets the mapped position; heights and the editor are untouched; nothing happens when a pane is missing |
| MarkdownEditor.EditorPanes.HandlePreviewScroll | src/components/editor/MarkdownEditor.tsx:31-42 | the same mapping with the roles swapped |
| MarkdownEditor.EchoSettles | src/components/editor/MarkdownEditor.tsx:18-42 | the preview's echoed scroll event puts the editor back where it was |

## Left out

- The remote model's SDK calls (`generateContent`, `generateContentStream`) are foreign code: a completion is a given response or failure (`RemoteOutcome`).
- The streaming generator `streamComplete` is not modelled beyond its error mapping (`Gemini.StreamFailure`); its chunk loop is SDK iteration.
- Gemini.MapUsage: token counts are integers and `Number(v)` is reduced to null (0), a finite count, or a non-finite value; strings, booleans and fractional numbers in the metadata are not distinguished.
- Gemini.Settled: the thrown error record carries message and code only; the `details` field built by the error mapping is not carried into the thrown value.
- The `temperature` and `maxTokens` fields are carried in the request types but the code never uses them.
- The key store (`save`, `load`, `delete`, `exists`) and the file dialogs are host calls: their answers are parameters, with a failed `load` or `exists` taken as no key. The desktop backend registers only `open_file`, `save_file` and `create_file` (src-tauri/src/lib.rs:18), so against the app as shipped every key-store call is rejected: save and delete fail, load and exists report no key, and the success branches of `HandleSave` and `HandleRemove` are not reached.
- AiOperations.InitializeAI: building the client from a non-empty key is taken never to throw, so the `catch` of `initializeAI` (src/lib/aiOperations.ts:23-26) has no counterpart: `load` already turns its own failures into no key, and `initialize` throws only for an empty key, which the guard before it excludes.
- `console.error` logging, the JSX rendering, class names and the Markdown preview are presentation.
- The `save-triggered` event listener in the editor component, and the open and save handlers the toolbar imports (`handleOpenFile`, `handleSaveFile`), which the file helpers do not define, are not part of this model.
- Interleaving: each handler runs to completion with its awaited outcomes given in advance; two requests overlapping in time and React's batching of state updates are not modelled.
- AiOperations.LineCount: `contextLines` is an optional integer, so a fractional or `NaN` count passed through `|| 10` is not represented; the only caller passes 20.
- Scroll positions are exact reals: float rounding and the browser's clamping of `scrollTop` are not modelled.
- MarkdownEditor.Surface: heights and positions are unconstrained reals; the browser's guarantees `scrollHeight >= clientHeight` and `0 <= scrollTop <= scrollHeight - clientHeight` are not modelled, so the scroll lemmas also cover states no page reaches.
