/** The assistant panel: its loading flag, its error message and the staged
    suggestion, the three request handlers, accepting and dismissing the
    suggestion, and the conditions that disable the buttons and show the
    suggestion. A handler runs in two steps around the awaited request: `Begin`
    is the state while the request is in flight, `Settle` the state after. */
module AiActions {
  import opened Js
  import opened JsStrings
  import opened GeminiTypes
  import opened Gemini
  import AiOperations
  import EditorStore

  const NoContentToImprove := "No content to improve"
  const NoContentToSummarize := "No content to summarize"
  const ContinueFallback := "Failed to generate continuation"
  const ImproveFallback := "Failed to improve text"
  const SummarizeFallback := "Failed to summarize"
  const Separator := "\n\n"

  /** The message shown for a failure: an `Error`'s own message, the handler's
      fallback text for anything else. */
  function ErrorText(e: Thrown, fallback: string): (text: string)
    ensures e.ErrorObject? ==> text == e.message
    ensures !e.ErrorObject? ==> text == fallback
  {
    if e.ErrorObject? then e.message else fallback
  }

  /** A failed remote call reaches the panel as a plain error record, so the
      panel shows the handler's fallback text, whatever the cause. */
  lemma RemoteFailureShowsFallback(cause: Thrown, fallback: string)
    ensures var r := AiOperations.TextOf(Settled(Raised(cause)));
            r.Failure? && ErrorText(r.error, fallback) == fallback
  {
  }

  /** A missing key reaches the panel as an `Error`, so its own message is shown. */
  lemma MissingKeyShowsItsMessage(fallback: string)
    ensures ErrorText(ErrorObject(AiOperations.KeyNotFound), fallback) == AiOperations.KeyNotFound
  {
  }

  /** The guard `!content.trim()` both handlers share: the trimmed text is
      empty exactly when every character is whitespace. Kept as a method so
      that the handlers reason about its answer, not about trimming. */
  method IsBlank(text: string) returns (blank: bool)
    ensures blank == AllWhitespace(text)
  {
    blank := Trim(text) == "";
  }

  class AiActionsPanel {
    var isLoading: bool
    var error: Option<string>
    var aiResponse: Option<string>

    constructor ()
      ensures !isLoading && error == None && aiResponse == None
    {
      isLoading, error, aiResponse := false, None, None;
    }

    /** Continue is disabled only while a request is in flight. */
    predicate ContinueDisabled()
      reads this
    {
      isLoading
    }

    /** Improve and summarise are disabled while loading or when the document is
        the empty string (a whitespace-only document leaves them enabled). */
    predicate ImproveDisabled(content: string)
      reads this
      ensures ContinueDisabled() ==> ImproveDisabled(content)
      ensures content == "" ==> ImproveDisabled(content)
      ensures !ImproveDisabled(content) ==> |content| > 0
    {
      isLoading || content == ""
    }

    /** Summarise shares improve's condition. */
    predicate SummarizeDisabled(content: string)
      reads this
      ensures SummarizeDisabled(content) <==> ImproveDisabled(content)
    {
      isLoading || content == ""
    }

    /** The suggestion is shown when a non-empty response is staged and no
        request is in flight. */
    predicate SuggestionVisible()
      reads this
    {
      Truthy(aiResponse) && !isLoading
    }

    /** The panel once a request has settled with `r`: not loading; a success
        stages the returned text with no error, a failure leaves `previous`
        staged and shows the error's text or the handler's fallback. */
    predicate SettledWith(r: Result<string, Thrown>, fallback: string, previous: Option<string>)
      reads this
    {
      && !isLoading
      && (r.Success? ==> aiResponse == Some(r.value) && error == None)
      && (r.Failure? ==> aiResponse == previous && error == Some(ErrorText(r.error, fallback)))
    }

    /** The in-flight state: loading, no error, and the previous suggestion, if
        any, still staged. */
    method Begin()
      modifies this
      ensures isLoading && error == None && aiResponse == old(aiResponse)
      ensures ContinueDisabled() && !SuggestionVisible()
    {
      isLoading := true;
      error := None;
    }

    /** The settled state: not loading; a success stages the returned text, a
        failure keeps the staged suggestion and shows an error. */
    method Settle(r: Result<string, Thrown>, fallback: string)
      modifies this
      ensures !isLoading
      ensures r.Success? ==> aiResponse == Some(r.value) && error == old(error)
      ensures r.Failure? ==> aiResponse == old(aiResponse) && error == Some(ErrorText(r.error, fallback))
      ensures !ContinueDisabled()
      ensures r.Success? ==> (SuggestionVisible() <==> r.value != "")
    {
      if r.Success? {
        aiResponse := Some(r.value);
      } else {
        error := Some(ErrorText(r.error, fallback));
      }
      isLoading := false;
    }

    method HandleContinueWriting(store: EditorStore.EditorState, service: GeminiService, stored: Option<string>, remote: RemoteOutcome)
      returns (sent: Option<GenerateRequest>, r: Result<string, Thrown>)
      modifies this, service
      ensures service.model == old(service.model)
      ensures AiOperations.LazilyInitialized(old(service.client), stored, service.client)
      ensures service.client.Some? ==>
                sent == Some(GenerateRequest(service.model,
                  FullPrompt(CompletionRequest(AiOperations.ContinuePrompt,
                    Some(AiOperations.Context(store.content, Some(AiOperations.ContinueContextLines))), None))))
      ensures service.client.None? ==> sent == None && r == Failure(ErrorObject(AiOperations.KeyNotFound))
      ensures service.client.Some? ==> r == AiOperations.TextOf(Settled(remote))
      ensures SettledWith(r, ContinueFallback, old(aiResponse))
    {
      Begin();
      sent, r := AiOperations.ContinueWriting(service, store, stored, remote);
      Settle(r, ContinueFallback);
    }

    /** The request of the improve handler once the guard has passed: the
        whole document is sent for improvement and the panel settles. */
    method RequestImprovement(store: EditorStore.EditorState, service: GeminiService, stored: Option<string>, remote: RemoteOutcome)
      returns (sent: Option<GenerateRequest>, r: Result<string, Thrown>)
      modifies this, service
      ensures service.model == old(service.model)
      ensures AiOperations.LazilyInitialized(old(service.client), stored, service.client)
      ensures service.client.Some? ==>
                sent == Some(GenerateRequest(service.model, AiOperations.ImprovePrompt(store.content)))
                && r == AiOperations.TextOf(Settled(remote))
      ensures service.client.None? ==> sent == None && r == Failure(ErrorObject(AiOperations.KeyNotFound))
      ensures SettledWith(r, ImproveFallback, old(aiResponse))
    {
      Begin();
      sent, r := AiOperations.ImproveText(service, store, stored, store.content, remote);
      Settle(r, ImproveFallback);
    }

    /** The request of the summarise handler once the guard has passed: the
        document is sent for a summary and the panel settles. */
    method RequestSummary(store: EditorStore.EditorState, service: GeminiService, stored: Option<string>, remote: RemoteOutcome)
      returns (sent: Option<GenerateRequest>, r: Result<string, Thrown>)
      modifies this, service
      ensures service.model == old(service.model)
      ensures AiOperations.LazilyInitialized(old(service.client), stored, service.client)
      ensures service.client.Some? ==>
                sent == Some(GenerateRequest(service.model, AiOperations.SummarizePrompt(store.content)))
                && r == AiOperations.TextOf(Settled(remote))
      ensures service.client.None? ==> sent == None && r == Failure(ErrorObject(AiOperations.KeyNotFound))
      ensures SettledWith(r, SummarizeFallback, old(aiResponse))
    {
      Begin();
      sent, r := AiOperations.SummarizeText(service, store, stored, None, remote);
      Settle(r, SummarizeFallback);
    }

    /** Rejects a whitespace-only document with an error, without a request
        and without touching the loading flag or the suggestion; otherwise
        asks to improve the whole document. `outcome` is what the request
        returned or threw, absent when no request was made. */
    method HandleImprove(store: EditorStore.EditorState, service: GeminiService, stored: Option<string>, remote: RemoteOutcome)
      returns (sent: Option<GenerateRequest>, outcome: Option<Result<string, Thrown>>)
      modifies this, service
      ensures service.model == old(service.model)
      ensures AllWhitespace(store.content) ==>
                && sent == None && outcome == None
                && error == Some(NoContentToImprove)
                && isLoading == old(isLoading) && aiResponse == old(aiResponse)
                && service.client == old(service.client)
      ensures !AllWhitespace(store.content) ==>
                && outcome.Some?
                && AiOperations.LazilyInitialized(old(service.client), stored, service.client)
                && (service.client.Some? ==>
                      sent == Some(GenerateRequest(service.model, AiOperations.ImprovePrompt(store.content)))
                      && outcome.value == AiOperations.TextOf(Settled(remote)))
                && (service.client.None? ==> sent == None && outcome.value == Failure(ErrorObject(AiOperations.KeyNotFound)))
                && SettledWith(outcome.value, ImproveFallback, old(aiResponse))
    {
      var blank := IsBlank(store.content);
      if blank {
        error := Some(NoContentToImprove);
        return None, None;
      }
      var r;
      sent, r := RequestImprovement(store, service, stored, remote);
      outcome := Some(r);
    }

    /** Rejects a whitespace-only document as above; otherwise asks to summarise
        the document. */
    method HandleSummarize(store: EditorStore.EditorState, service: GeminiService, stored: Option<string>, remote: RemoteOutcome)
      returns (sent: Option<GenerateRequest>, outcome: Option<Result<string, Thrown>>)
      modifies this, service
      ensures service.model == old(service.model)
      ensures AllWhitespace(store.content) ==>
                && sent == None && outcome == None
                && error == Some(NoContentToSummarize)
                && isLoading == old(isLoading) && aiResponse == old(aiResponse)
                && service.client == old(service.client)
      ensures !AllWhitespace(store.content) ==>
                && outcome.Some?
                && AiOperations.LazilyInitialized(old(service.client), stored, service.client)
                && (service.client.Some? ==>
                      sent == Some(GenerateRequest(service.model, AiOperations.SummarizePrompt(store.content)))
                      && outcome.value == AiOperations.TextOf(Settled(remote)))
                && (service.client.None? ==> sent == None && outcome.value == Failure(ErrorObject(AiOperations.KeyNotFound)))
                && SettledWith(outcome.value, SummarizeFallback, old(aiResponse))
    {
      var blank := IsBlank(store.content);
      if blank {
        error := Some(NoContentToSummarize);
        return None, None;
      }
      var r;
      sent, r := RequestSummary(store, service, stored, remote);
      outcome := Some(r);
    }

    /** A non-empty staged suggestion is appended to the current text after a
        blank line, through the store's content setter (so the document becomes
        dirty), and the suggestion is cleared; otherwise nothing changes. */
    method HandleAcceptResponse(store: EditorStore.EditorState)
      modifies this, store
      ensures Truthy(old(aiResponse)) ==>
                && store.Snapshot() == EditorStore.Apply(old(store.Snapshot()),
                     EditorStore.Action.SetContent(old(store.content) + Separator + old(aiResponse).value))
                && aiResponse == None
                && isLoading == old(isLoading) && error == old(error)
      ensures !Truthy(old(aiResponse)) ==> unchanged(this) && unchanged(store)
      ensures !SuggestionVisible()
    {
      if Truthy(aiResponse) {
        store.SetContent(store.content + Separator + aiResponse.value);
        aiResponse := None;
      }
    }

    /** Drops the staged suggestion; the document is not involved. */
    method Dismiss()
      modifies this
      ensures aiResponse == None && isLoading == old(isLoading) && error == old(error)
      ensures !SuggestionVisible()
    {
      aiResponse := None;
    }
  }

  /** Accepting keeps the text as it is at acceptance time and adds the
      suggestion after a blank line; the result is dirty and keeps path and name. */
  lemma AcceptAppendsToCurrentText(d: EditorStore.Document, suggestion: string)
    ensures var after := EditorStore.Apply(d, EditorStore.Action.SetContent(d.content + Separator + suggestion));
            && IsPrefix(d.content + Separator, after.content)
            && IsSuffix(suggestion, after.content)
            && after.hasUnsavedChanges
            && after.filePath == d.filePath && after.fileName == d.fileName
  {
  }

  /** While a request is in flight every action button is disabled, whatever
      the document, and no suggestion is shown. */
  lemma InFlightDisablesEveryButton(panel: AiActionsPanel, content: string)
    requires panel.isLoading
    ensures panel.ContinueDisabled() && panel.ImproveDisabled(content) && panel.SummarizeDisabled(content)
    ensures !panel.SuggestionVisible()
  {
  }

  /** Once a request has settled, the buttons are enabled again (Improve and
      Summarize for any non-empty document), and the suggestion is shown
      exactly when a non-empty text is staged: the returned text after a
      success, the earlier suggestion after a failure. */
  lemma SettledShowsStagedText(panel: AiActionsPanel, r: Result<string, Thrown>, fallback: string, previous: Option<string>, content: string)
    requires panel.SettledWith(r, fallback, previous)
    ensures !panel.ContinueDisabled()
    ensures content != "" ==> !panel.ImproveDisabled(content) && !panel.SummarizeDisabled(content)
    ensures panel.SuggestionVisible() <==> (if r.Success? then r.value != "" else Truthy(previous))
  {
  }

  /** Any non-empty, whitespace-only document leaves Improve and Summarize
      enabled on an idle panel, yet their handlers reject it. */
  lemma ButtonAndGuardDisagreeOnBlankText(panel: AiActionsPanel, content: string)
    requires !panel.isLoading
    requires content != "" && AllWhitespace(content)
    ensures !panel.ImproveDisabled(content) && !panel.SummarizeDisabled(content)
    ensures Trim(content) == ""
  {
  }
}
