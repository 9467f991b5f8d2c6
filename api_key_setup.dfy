/** The API-key setup panel: the typed key, whether a key is stored, the loading
    flag, the error message and whether the input is shown. The key store is
    reached through its outcomes: whether a key exists, whether a save or a
    delete succeeds, and what loading the key yields. Each handler runs in two
    steps around the awaited store call: a `Begin…` step is the state while
    the call is in flight, the rest of the handler the state after. */
module ApiKeySetup {
  import opened Js
  import opened JsStrings
  import opened Gemini
  import AiOperations

  const EnterKey := "Please enter an API Key"
  const SaveFailed := "Failed to save api key"
  const RemoveFailed := "Failed to remove API key"

  class ApiKeySetupPanel {
    var apiKey: string
    var hasKey: bool
    var isLoading: bool
    var error: Option<string>
    var showInput: bool

    constructor ()
      ensures apiKey == "" && !hasKey && !isLoading && error == None && !showInput
    {
      apiKey, hasKey, isLoading, error, showInput := "", false, false, None, false;
    }

    /** The "AI features enabled" banner replaces the form exactly when a key
        is stored and the input has not been asked for. */
    predicate BannerShown()
      reads this
      ensures BannerShown() ==> hasKey
      ensures showInput ==> !BannerShown()
    {
      hasKey && !showInput
    }

    /** The save button is disabled while loading or when the typed key is
        blank after trimming. */
    predicate SaveDisabled()
      reads this
      ensures SaveDisabled() <==> isLoading || AllWhitespace(apiKey)
    {
      isLoading || Trim(apiKey) == ""
    }

    /** The remove button and the input are disabled while loading. */
    predicate RemoveDisabled()
      reads this
    {
      isLoading
    }

    /** On mount: records whether a key exists and, only when it does,
        initialises the service from the loaded key. */
    method CheckExistingKey(service: GeminiService, keyExists: bool, loaded: Option<string>)
      modifies this, service
      ensures hasKey == keyExists
      ensures apiKey == old(apiKey) && isLoading == old(isLoading) && error == old(error) && showInput == old(showInput)
      ensures keyExists ==> AiOperations.InitializedFrom(old(service.client), loaded, service.client)
      ensures !keyExists ==> service.client == old(service.client)
      ensures service.model == old(service.model)
    {
      hasKey := keyExists;
      if keyExists {
        var _ := AiOperations.InitializeAI(service, loaded);
      }
    }

    /** Typing in the input. */
    method SetApiKeyInput(value: string)
      modifies this
      ensures apiKey == value
      ensures hasKey == old(hasKey) && isLoading == old(isLoading) && error == old(error) && showInput == old(showInput)
    {
      apiKey := value;
    }

    /** "Change Key": shows the input again; the stored key stays. */
    method ChangeKey()
      modifies this
      ensures showInput
      ensures apiKey == old(apiKey) && hasKey == old(hasKey) && isLoading == old(isLoading) && error == old(error)
    {
      showInput := true;
    }

    /** The in-flight state of a save: loading and no error. */
    method BeginSave()
      modifies this
      ensures isLoading && error == None
      ensures apiKey == old(apiKey) && hasKey == old(hasKey) && showInput == old(showInput)
      ensures RemoveDisabled() && SaveDisabled()
    {
      isLoading, error := true, None;
    }

    /** The in-flight state of a remove: loading; the error stays. */
    method BeginRemove()
      modifies this
      ensures isLoading
      ensures apiKey == old(apiKey) && hasKey == old(hasKey) && error == old(error) && showInput == old(showInput)
      ensures RemoveDisabled() && SaveDisabled()
    {
      isLoading := true;
    }

    /** A blank key (after trimming) is refused with a message and reaches no
        store operation. Otherwise the typed key, untrimmed, is saved; when the
        save succeeds the service is initialised from the loaded key, a key is
        recorded, the input is hidden and cleared; when it fails, only the
        error changes. Either way the panel ends not loading. `savedKey` is
        the key handed to the store, if any. */
    method HandleSave(service: GeminiService, saveSucceeds: bool, loaded: Option<string>) returns (savedKey: Option<string>)
      modifies this, service
      ensures AllWhitespace(old(apiKey)) ==>
                && savedKey == None && error == Some(EnterKey)
                && apiKey == old(apiKey) && hasKey == old(hasKey) && isLoading == old(isLoading) && showInput == old(showInput)
                && service.client == old(service.client)
      ensures !AllWhitespace(old(apiKey)) ==> savedKey == Some(old(apiKey)) && !isLoading
      ensures !AllWhitespace(old(apiKey)) && saveSucceeds ==>
                && hasKey && !showInput && apiKey == "" && error == None
                && AiOperations.InitializedFrom(old(service.client), loaded, service.client)
      ensures !AllWhitespace(old(apiKey)) && !saveSucceeds ==>
                && error == Some(SaveFailed)
                && hasKey == old(hasKey) && showInput == old(showInput) && apiKey == old(apiKey)
                && service.client == old(service.client)
      ensures service.model == old(service.model)
      ensures !AllWhitespace(old(apiKey)) ==> !RemoveDisabled()
    {
      var typed := apiKey;
      if Trim(typed) == "" {
        error := Some(EnterKey);
        return None;
      }
      assert !AllWhitespace(typed);
      BeginSave();
      savedKey := Some(typed);
      if saveSucceeds {
        var _ := AiOperations.InitializeAI(service, loaded);
        hasKey, showInput, apiKey := true, false, "";
      } else {
        error := Some(SaveFailed);
      }
      isLoading := false;
    }

    /** Declined at the confirmation: nothing happens. Otherwise the key is
        deleted; success records that no key is stored, failure shows an error;
        either way the panel ends not loading. The service is not involved, so
        a client built earlier stays. `deleteCalled` says whether the delete
        was issued. */
    method HandleRemove(confirmed: bool, deleteSucceeds: bool) returns (deleteCalled: bool)
      modifies this
      ensures !confirmed ==> !deleteCalled && unchanged(this)
      ensures confirmed ==> deleteCalled && !isLoading && apiKey == old(apiKey) && showInput == old(showInput)
      ensures confirmed && deleteSucceeds ==> !hasKey && error == old(error)
      ensures confirmed && !deleteSucceeds ==> hasKey == old(hasKey) && error == Some(RemoveFailed)
      ensures confirmed ==> !RemoveDisabled()
    {
      if !confirmed {
        return false;
      }
      BeginRemove();
      deleteCalled := true;
      if deleteSucceeds {
        hasKey := false;
      } else {
        error := Some(RemoveFailed);
      }
      isLoading := false;
    }
  }

  /** The save button is enabled only when the handler's guard lets the key
      through, and a blank key with the panel idle leaves the button disabled. */
  lemma SaveEnabledMeansGuardPasses(panel: ApiKeySetupPanel)
    ensures !panel.SaveDisabled() ==> !panel.isLoading && !AllWhitespace(panel.apiKey)
    ensures !panel.isLoading && AllWhitespace(panel.apiKey) ==> panel.SaveDisabled()
  {
  }

  /** While a save or a remove is in flight, the input, the save button and the
      remove button are all disabled, whatever has been typed. */
  lemma InFlightDisablesKeyControls(panel: ApiKeySetupPanel)
    requires panel.isLoading
    ensures panel.RemoveDisabled() && panel.SaveDisabled()
  {
  }

  /** Removing the key leaves an initialised service initialised with the same
      client: the panel shows no key while the assistant keeps working. The
      first clause is what the `modifies panel` frame shows: the remove handler
      touches the panel only, never the service. */
  method RemoveKeepsService(panel: ApiKeySetupPanel, service: GeminiService, deleteSucceeds: bool)
    modifies panel
    ensures service.client == old(service.client)
    ensures deleteSucceeds ==> !panel.hasKey
  {
    var _ := panel.HandleRemove(true, deleteSucceeds);
  }

  /** After a successful save with the key store answering the saved key, the
      service holds a client built from the key as typed (not trimmed), and
      the banner shows. */
  method SaveThenInitialize(panel: ApiKeySetupPanel, service: GeminiService)
    requires !AllWhitespace(panel.apiKey)
    modifies panel, service
    ensures service.client == Some(Client(old(panel.apiKey)))
    ensures panel.BannerShown()
  {
    var typed := panel.apiKey;
    var saved := panel.HandleSave(service, true, Some(typed));
  }
}
