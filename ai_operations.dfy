/** The assistant operations: lazy initialisation of the shared service from the
    stored key, the "last N lines" context taken from the document, and the three
    fixed prompts (continue, improve, summarise). The stored key (what loading it
    from the key store yields) and the remote outcome are parameters. */
module AiOperations {
  import opened Js
  import opened JsStrings
  import opened GeminiTypes
  import opened Gemini
  import EditorStore

  const Newline: set<char> := {'\n'}
  const DefaultContextLines := 10
  const ContinueContextLines := 20
  const ContinuePrompt := "Continue writing this document naturally:"
  const ImprovePrefix := "Improve the following text for clarity and grammar:\n\n"
  const SummarizePrefix := "Provide a concise summary of the following text:\n\n"
  const KeyNotFound := "Gemini API key not found. Please add your API key in settings."

  datatype CompletionOptions = CompletionOptions(includeContext: bool, contextLines: Option<int>)

  // ---------------------------------------------------------------------------
  // context

  /** `contextLines || 10`: the requested count, or 10 when it is absent or 0. */
  function LineCount(contextLines: Option<int>): (n: int)
    ensures n != 0
    ensures contextLines.Some? && contextLines.value != 0 ==> n == contextLines.value
    ensures contextLines.None? || contextLines.value == 0 ==> n == DefaultContextLines
  {
    if contextLines.Some? && contextLines.value != 0 then contextLines.value else DefaultContextLines
  }

  /** The last `LineCount(contextLines)` lines of the text, rejoined: split on
      "\n", `slice(-n)`, join with "\n". For a positive count, the context has
      at most that many lines, they are the text's last lines, and a text with
      no more lines than that is its own context. */
  function Context(content: string, contextLines: Option<int>): (ctx: string)
    ensures IsSuffix(ctx, content)
    ensures var lines := Split(content, Newline);
            var n := LineCount(contextLines);
            n > 0 ==>
              && Split(ctx, Newline) == lines[|lines| - Min(n, |lines|)..]
              && |Split(ctx, Newline)| <= n
              && (|lines| <= n ==> ctx == content)
  {
    var n := LineCount(contextLines);
    var lines := Split(content, Newline);
    var ctx := Join(SliceFrom(lines, -n), '\n');
    ContextFacts(content, n);
    assert n > 0 ==> |lines[|lines| - Min(n, |lines|)..]| <= n;
    ctx
  }

  lemma ContextFacts(content: string, n: int)
    ensures var lines := Split(content, Newline);
            var ctx := Join(SliceFrom(lines, -n), '\n');
            && IsSuffix(ctx, content)
            && (n > 0 ==> Split(ctx, Newline) == lines[|lines| - Min(n, |lines|)..])
            && (n > 0 && |lines| <= n ==> ctx == content)
  {
    var lines := Split(content, Newline);
    var kept := SliceFrom(lines, -n);
    JoinTailIsSuffix(lines, '\n', |lines| - |kept|);
    JoinSplit(content, '\n');
    if n > 0 {
      SplitJoin(kept, '\n');
      if |lines| <= n {
        assert kept == lines;
      }
    }
  }

  /** The request `generateCompletion` hands to the service. */
  function RequestFor(prompt: string, options: CompletionOptions, content: string): CompletionRequest {
    CompletionRequest(prompt, if options.includeContext then Some(Context(content, options.contextLines)) else None, None)
  }

  /** The text of a completion, or what it threw. */
  function TextOf(r: Result<CompletionResponse, Thrown>): Result<string, Thrown> {
    match r
    case Success(response) => Success(response.text)
    case Failure(e) => Failure(e)
  }

  /** The client after `initializeAI`: a new client from the stored key when it
      is a non-empty string, the previous one otherwise. */
  predicate InitializedFrom(before: Option<Client>, stored: Option<string>, after: Option<Client>) {
    if Truthy(stored) then after == Some(Client(stored.value)) else after == before
  }

  /** The client after a lazy initialisation from the stored key: an existing
      client is kept, a missing one is initialised as above. */
  predicate LazilyInitialized(before: Option<Client>, stored: Option<string>, after: Option<Client>) {
    if before.Some? then after == before else InitializedFrom(before, stored, after)
  }

  // ---------------------------------------------------------------------------
  // prompts

  function ImprovePrompt(text: string): (p: string)
    ensures IsPrefix(ImprovePrefix, p) && IsSuffix(text, p)
    ensures |p| == |ImprovePrefix| + |text|
  {
    ImprovePrefix + text
  }

  function SummarizePrompt(text: string): (p: string)
    ensures IsPrefix(SummarizePrefix, p) && IsSuffix(text, p)
    ensures |p| == |SummarizePrefix| + |text|
  {
    SummarizePrefix + text
  }

  /** What `continueWriting` sends: the continue prompt, preceded by the last 20
      lines of the document and a blank line unless the document is empty. */
  lemma ContinueRequestShape(content: string)
    ensures var full := FullPrompt(RequestFor(ContinuePrompt, CompletionOptions(true, Some(ContinueContextLines)), content));
            var ctx := Context(content, Some(ContinueContextLines));
            && IsSuffix(ContinuePrompt, full)
            && (content == "" ==> full == ContinuePrompt)
            && (content != "" ==> IsPrefix(ctx + "\n\n", full) && ctx != "" && IsSuffix(ctx, content))
  {
    var ctx := Context(content, Some(ContinueContextLines));
    if ctx == "" {
      // an empty context is the single empty last line, so the text is empty
      var lines := Split(content, Newline);
      assert Split(ctx, Newline) == [""];
      assert |lines| == 1;
      JoinSplit(content, '\n');
    }
  }

  // ---------------------------------------------------------------------------
  // operations on the shared service

  /** True exactly when a non-empty key is stored, after the service has been
      initialised with it; otherwise the service is left as it was. */
  method InitializeAI(service: GeminiService, stored: Option<string>) returns (ok: bool)
    modifies service
    ensures ok <==> Truthy(stored)
    ensures InitializedFrom(old(service.client), stored, service.client)
    ensures service.model == old(service.model)
  {
    if !Truthy(stored) {
      return false;
    }
    var r := service.Initialize(GeminiConfig(stored.value, None, None));
    ok := r.Success?;
  }

  /** Initialises the service first when it has no client, and throws without a
      remote call when that fails; then sends the prompt, with the last lines of
      the document as context when asked, and returns the answer's text. */
  method GenerateCompletion(service: GeminiService, store: EditorStore.EditorState, stored: Option<string>,
                            prompt: string, options: CompletionOptions, remote: RemoteOutcome)
    returns (sent: Option<GenerateRequest>, r: Result<string, Thrown>)
    modifies service
    ensures LazilyInitialized(old(service.client), stored, service.client)
    ensures service.model == old(service.model)
    ensures service.client.None? ==> sent == None && r == Failure(ErrorObject(KeyNotFound))
    ensures service.client.Some? ==>
              && sent == Some(GenerateRequest(service.model, FullPrompt(RequestFor(prompt, options, store.content))))
              && r == TextOf(Settled(remote))
    ensures service.IsInitialized() <==> sent.Some?
  {
    if !service.IsInitialized() {
      var initialized := InitializeAI(service, stored);
      if !initialized {
        return None, Failure(ErrorObject(KeyNotFound));
      }
    }
    var context := "";
    if options.includeContext {
      context := Context(store.content, options.contextLines);
    }
    var response;
    sent, response := service.Complete(CompletionRequest(prompt, if options.includeContext then Some(context) else None, None), remote);
    r := TextOf(response);
  }

  /** Asks to continue the document, with its last 20 lines as context. */
  method ContinueWriting(service: GeminiService, store: EditorStore.EditorState, stored: Option<string>, remote: RemoteOutcome)
    returns (sent: Option<GenerateRequest>, r: Result<string, Thrown>)
    modifies service
    ensures LazilyInitialized(old(service.client), stored, service.client)
    ensures service.model == old(service.model)
    ensures service.client.None? ==> sent == None && r == Failure(ErrorObject(KeyNotFound))
    ensures service.client.Some? ==>
              && sent == Some(GenerateRequest(service.model,
                   FullPrompt(CompletionRequest(ContinuePrompt, Some(Context(store.content, Some(ContinueContextLines))), None))))
              && r == TextOf(Settled(remote))
  {
    sent, r := GenerateCompletion(service, store, stored, ContinuePrompt, CompletionOptions(true, Some(ContinueContextLines)), remote);
  }

  /** Asks to improve the given text, without context. */
  method ImproveText(service: GeminiService, store: EditorStore.EditorState, stored: Option<string>, text: string, remote: RemoteOutcome)
    returns (sent: Option<GenerateRequest>, r: Result<string, Thrown>)
    modifies service
    ensures LazilyInitialized(old(service.client), stored, service.client)
    ensures service.model == old(service.model)
    ensures service.client.None? ==> sent == None && r == Failure(ErrorObject(KeyNotFound))
    ensures service.client.Some? ==>
              sent == Some(GenerateRequest(service.model, ImprovePrompt(text))) && r == TextOf(Settled(remote))
  {
    sent, r := GenerateCompletion(service, store, stored, ImprovePrompt(text), CompletionOptions(false, None), remote);
  }

  /** Asks to summarise the given text when it is a non-empty string, and the
      document otherwise, without context. */
  method SummarizeText(service: GeminiService, store: EditorStore.EditorState, stored: Option<string>, text: Option<string>, remote: RemoteOutcome)
    returns (sent: Option<GenerateRequest>, r: Result<string, Thrown>)
    modifies service
    ensures LazilyInitialized(old(service.client), stored, service.client)
    ensures service.model == old(service.model)
    ensures service.client.None? ==> sent == None && r == Failure(ErrorObject(KeyNotFound))
    ensures service.client.Some? ==>
              && sent == Some(GenerateRequest(service.model,
                   SummarizePrompt(if Truthy(text) then text.value else store.content)))
              && r == TextOf(Settled(remote))
  {
    var target := OrElse(text, store.content);
    sent, r := GenerateCompletion(service, store, stored, SummarizePrompt(target), CompletionOptions(false, None), remote);
  }
}
