/** The assistant service: a client that is either constructed from an API key or
    absent, the model name it asks for, the composition of the prompt sent to the
    remote model, the mapping of the remote answer (text and token usage) and the
    mapping of failures to error records. The remote call itself is an outcome
    given as a parameter. */
module Gemini {
  import opened Js
  import opened JsStrings
  import opened GeminiTypes

  const DefaultModel := "gemini-3-flash-preview"
  const ApiKeyRequired := "Gemini API Key is required"
  const NotInitialized := "Gemini service not initialized. Call initialize() first."
  const UnknownMessage := "An unknown error occured"
  const GeminiCode := "GEMINI_ERROR"
  const UnknownCode := "UNKNOWN_ERROR"

  /** The keys under which the remote answer may report each token count, in the
      order they are tried. */
  const PromptKeys := ["promptTokens", "promptTokenCount", "prompt_token_count", "prompt_tokens", "prompt_token", "prompt"]
  const CompletionKeys := ["completionTokens", "completionTokenCount", "completion_token_count", "completion_tokens", "completion_token", "completion"]
  const TotalKeys := ["totalTokens", "totalTokenCount", "total_token_count", "total_tokens", "total_token", "total"]

  /** A client built from an API key. */
  datatype Client = Client(apiKey: string)

  /** A field of the remote usage metadata: `null`, a finite count, or a value
      whose numeric conversion is not finite. An absent key is `undefined`. */
  datatype RawValue = Null | Count(n: int) | NotFinite

  /** What the remote model answers: optional text and optional usage metadata. */
  datatype RawResponse = RawResponse(text: Option<string>, usageMetadata: Option<map<string, RawValue>>)

  /** The request handed to the remote model. */
  datatype GenerateRequest = GenerateRequest(model: string, contents: string)

  /** How the remote call settles. */
  datatype RemoteOutcome = Responded(response: RawResponse) | Raised(cause: Thrown)

  // ---------------------------------------------------------------------------
  // prompt composition

  /** The text sent to the model: the context, a blank line and the prompt when
      the context is a non-empty string; the prompt alone otherwise. */
  function FullPrompt(request: CompletionRequest): (full: string)
    ensures IsSuffix(request.prompt, full)
    ensures Truthy(request.context) ==>
              && IsPrefix(request.context.value + "\n\n", full)
              && |full| == |request.context.value| + 2 + |request.prompt|
    ensures !Truthy(request.context) ==> full == request.prompt
  {
    if Truthy(request.context) then request.context.value + "\n\n" + request.prompt
    else request.prompt
  }

  // ---------------------------------------------------------------------------
  // usage mapping

  /** A key that is `undefined` (absent) or `null`. */
  predicate Missing(m: map<string, RawValue>, k: string) {
    k !in m || m[k] == Null
  }

  /** The value of the first key, in list order, that is neither `undefined` nor
      `null`; `None` when there is none. */
  function FirstDefined(m: map<string, RawValue>, keys: seq<string>): (v: Option<RawValue>)
    ensures v.None? <==> forall i | 0 <= i < |keys| :: Missing(m, keys[i])
    ensures v.Some? ==>
              exists i | 0 <= i < |keys| ::
                && !Missing(m, keys[i]) && v.value == m[keys[i]]
                && forall j | 0 <= j < i :: Missing(m, keys[j])
    decreases |keys|
  {
    if |keys| == 0 then None
    else if !Missing(m, keys[0]) then Some(m[keys[0]])
    else
      var v := FirstDefined(m, keys[1..]);
      assert forall i | 1 <= i < |keys| :: keys[i] == keys[1..][i - 1];
      if v.Some? then
        var i :| 0 <= i < |keys[1..]| && !Missing(m, keys[1..][i]) && v.value == m[keys[1..][i]]
                 && forall j | 0 <= j < i :: Missing(m, keys[1..][j]);
        assert forall j | 0 <= j < i + 1 :: Missing(m, keys[j]) by {
          forall j | 0 <= j < i + 1 ensures Missing(m, keys[j]) {
            if j > 0 { assert keys[j] == keys[1..][j - 1]; }
          }
        }
        v
      else v
  }

  /** Whatever the later keys hold, the value returned is that of the first key
      that is neither `undefined` nor `null`. */
  lemma {:induction false} FirstDefinedAt(m: map<string, RawValue>, keys: seq<string>, i: nat)
    requires i < |keys| && !Missing(m, keys[i])
    requires forall j | 0 <= j < i :: Missing(m, keys[j])
    ensures FirstDefined(m, keys) == Some(m[keys[i]])
    decreases i
  {
    if i > 0 {
      assert Missing(m, keys[0]);
      assert keys[1..][i - 1] == keys[i];
      assert forall j | 0 <= j < i - 1 :: keys[1..][j] == keys[j + 1];
      FirstDefinedAt(m, keys[1..], i - 1);
    }
  }

  /** The loop of `getFirst`: scans the keys in order and returns the first value
      that is neither `undefined` nor `null`. */
  method GetFirst(m: map<string, RawValue>, keys: seq<string>) returns (v: Option<RawValue>)
    ensures v == FirstDefined(m, keys)
  {
    var i := 0;
    while i < |keys|
      invariant 0 <= i <= |keys|
      invariant FirstDefined(m, keys) == FirstDefined(m, keys[i..])
    {
      assert keys[i..][1..] == keys[i + 1..];
      var k := keys[i];
      if !Missing(m, k) {
        return Some(m[k]);
      }
      i := i + 1;
    }
    return None;
  }

  /** `Number(v)` followed by `Number.isFinite`: `undefined` and non-numeric values
      give no count, `null` gives 0, a count gives itself. */
  function FiniteNumber(v: Option<RawValue>): Option<int> {
    match v
    case None => None
    case Some(Null) => Some(0)
    case Some(Count(n)) => Some(n)
    case Some(NotFinite) => None
  }

  /** The count reported under the first defined key of `keys`, if it is finite. */
  function CountUnder(m: map<string, RawValue>, keys: seq<string>): Option<int> {
    FiniteNumber(FirstDefined(m, keys))
  }

  /** Usage is reported only when the metadata is present and all three counts
      are finite; each count comes from the first defined key of its list. */
  function MapUsage(metadata: Option<map<string, RawValue>>): (u: Option<Usage>)
    ensures u.Some? <==>
              && metadata.Some?
              && CountUnder(metadata.value, PromptKeys).Some?
              && CountUnder(metadata.value, CompletionKeys).Some?
              && CountUnder(metadata.value, TotalKeys).Some?
    ensures u.Some? ==>
              && Some(u.value.promptTokens) == CountUnder(metadata.value, PromptKeys)
              && Some(u.value.completionTokens) == CountUnder(metadata.value, CompletionKeys)
              && Some(u.value.totalTokens) == CountUnder(metadata.value, TotalKeys)
  {
    match metadata
    case None => None
    case Some(m) =>
      var p, c, t := CountUnder(m, PromptKeys), CountUnder(m, CompletionKeys), CountUnder(m, TotalKeys);
      if p.Some? && c.Some? && t.Some? then Some(Usage(p.value, c.value, t.value)) else None
  }

  // ---------------------------------------------------------------------------
  // errors

  /** An `Error` keeps its message under the code GEMINI_ERROR; anything else
      becomes the fixed unknown-error message under UNKNOWN_ERROR. The cause is
      kept as the details. */
  function HandleError(cause: Thrown): (e: GeminiError)
    ensures e.details == cause
    ensures e.code == Some(GeminiCode) <==> cause.ErrorObject?
    ensures e.code == Some(UnknownCode) <==> !cause.ErrorObject?
    ensures e.message == if cause.ErrorObject? then cause.message else UnknownMessage
  {
    if cause.ErrorObject? then GeminiError(cause.message, Some(GeminiCode), cause)
    else GeminiError(UnknownMessage, Some(UnknownCode), cause)
  }

  /** The error record as a thrown value: a plain object, not an `Error`. */
  function AsThrown(e: GeminiError): (t: Thrown)
    ensures t.Record? && t.message == e.message && t.code == e.code
  {
    Record(e.message, e.code)
  }

  /** A failed stream hands `String(cause)` to the error mapping, so the record
      always carries the unknown-error message and code. */
  function StreamFailure(cause: Thrown): (e: GeminiError)
    ensures e.code == Some(UnknownCode) && e.message == UnknownMessage
    ensures e.details == StringValue(Stringify(cause))
  {
    HandleError(StringValue(Stringify(cause)))
  }

  /** What `complete` returns or throws once the remote call has settled. */
  function Settled(remote: RemoteOutcome): (r: Result<CompletionResponse, Thrown>)
    ensures remote.Raised? ==> r.Failure? && r.error.Record?
    ensures remote.Raised? ==>
              r.error.message == HandleError(remote.cause).message && r.error.code == HandleError(remote.cause).code
    ensures remote.Responded? ==> r.Success?
    ensures remote.Responded? ==>
              r.value.text == OrElse(remote.response.text, "")
              && r.value.usage == MapUsage(remote.response.usageMetadata)
  {
    match remote
    case Raised(cause) => Failure(AsThrown(HandleError(cause)))
    case Responded(response) =>
      Success(CompletionResponse(OrElse(response.text, ""), MapUsage(response.usageMetadata)))
  }

  // ---------------------------------------------------------------------------
  // the service object

  class GeminiService {
    var client: Option<Client>
    var model: string

    constructor ()
      ensures client == None && model == DefaultModel
    {
      client := None;
      model := DefaultModel;
    }

    /** Rejects an empty key without touching the client; otherwise builds a
        client from the key and adopts the configured model when one is given. */
    method Initialize(config: GeminiConfig) returns (r: Result<(), Thrown>)
      modifies this
      ensures config.apiKey == "" ==>
                r == Failure(ErrorObject(ApiKeyRequired))
                && client == old(client) && model == old(model)
      ensures config.apiKey != "" ==>
                r == Success(())
                && client == Some(Client(config.apiKey))
                && model == (if Truthy(config.model) then config.model.value else old(model))
      ensures IsInitialized() <==> config.apiKey != "" || old(IsInitialized())
    {
      if config.apiKey == "" {
        return Failure(ErrorObject(ApiKeyRequired));
      }
      client := Some(Client(config.apiKey));
      if Truthy(config.model) {
        model := config.model.value;
      }
      return Success(());
    }

    /** `isInitialized`: a client is held, so `complete` gets past its first check. */
    predicate IsInitialized()
      reads this
    {
      client.Some?
    }

    /** Drops the client; the model name stays. */
    method Reset()
      modifies this
      ensures client == None && model == old(model)
      ensures !IsInitialized()
    {
      client := None;
    }

    /** Without a client, throws before any remote call. With one, sends the
        composed prompt to the configured model and maps the answer or the
        failure; `sent` is the request handed to the remote model, if any. */
    method Complete(request: CompletionRequest, remote: RemoteOutcome)
      returns (sent: Option<GenerateRequest>, r: Result<CompletionResponse, Thrown>)
      ensures client.None? ==> sent == None && r == Failure(ErrorObject(NotInitialized))
      ensures client.Some? ==> sent == Some(GenerateRequest(model, FullPrompt(request)))
      ensures client.Some? ==> r == Settled(remote)
      ensures r == Failure(ErrorObject(NotInitialized)) <==> !IsInitialized()
    {
      if client.None? {
        return None, Failure(ErrorObject(NotInitialized));
      }
      var fullPrompt := FullPrompt(request);
      sent := Some(GenerateRequest(model, fullPrompt));
      match remote
      case Raised(cause) =>
        r := Failure(AsThrown(HandleError(cause)));
      case Responded(response) =>
        var text := OrElse(response.text, "");
        var usage: Option<Usage> := None;
        if response.usageMetadata.Some? {
          var m := response.usageMetadata.value;
          var promptVal := GetFirst(m, PromptKeys);
          var completionVal := GetFirst(m, CompletionKeys);
          var totalVal := GetFirst(m, TotalKeys);
          var promptN, completionN, totalN := FiniteNumber(promptVal), FiniteNumber(completionVal), FiniteNumber(totalVal);
          if promptN.Some? && completionN.Some? && totalN.Some? {
            usage := Some(Usage(promptN.value, completionN.value, totalN.value));
          }
        }
        r := Success(CompletionResponse(text, usage));
    }
  }
}
