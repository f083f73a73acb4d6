/**
 * PromptService of src/flare_ai_core/prompts/service.py: looks a prompt up in its
 * library and formats it, handing back the text together with the prompt's
 * response MIME type and response schema.
 */
module Service {
  import opened Wrappers
  import opened Schemas
  import Template
  import Library

  /** (formatted prompt, response MIME type, response schema), in that order. */
  type Formatted = (string, Option<string>, Option<ResponseSchema>)

  /** get_formatted_prompt over the library's entries. */
  function FormattedPrompt(prompts: map<string, Prompt>, name: string, kwargs: map<string, string>): (r: Result<Formatted>)
    ensures r.Ok? <==> Library.Lookup(prompts, name).Ok?
    ensures r.Ok? ==> var p := prompts[name]; r.value == (Format(p, kwargs), p.responseMimeType, p.responseSchema)
    ensures r.Err? ==> r.error == Library.Lookup(prompts, name).error
  {
    var p :- Library.Lookup(prompts, name);
    Ok((Format(p, kwargs), p.responseMimeType, p.responseSchema))
  }

  class PromptService {
    const library: Library.PromptLibrary

    /** PromptService(): a service over a fresh default library. */
    constructor ()
      ensures fresh(library) && library.Valid() && library.IsDefault()
    {
      library := new Library.PromptLibrary();
    }

    /**
     * get_formatted_prompt: fails exactly when get_prompt does, with the same
     * exception re-raised; a function of the library, which it leaves unchanged.
     */
    function GetFormattedPrompt(name: string, kwargs: map<string, string>): (r: Result<Formatted>)
      reads library
      ensures r.Ok? <==> library.GetPrompt(name).Ok?
      ensures r.Err? ==> r.error == library.GetPrompt(name).error
      ensures r.Ok? ==> r.value.0 == Format(library.GetPrompt(name).value, kwargs)
    {
      FormattedPrompt(library.prompts, name, kwargs)
    }
  }

  /** The default library has no follow-up prompt: asking the service for one raises KeyError. */
  lemma FollowUpMissing(svc: PromptService, kwargs: map<string, string>)
    requires svc.library.Valid() && svc.library.IsDefault()
    ensures svc.GetFormattedPrompt("follow_up_token_send", kwargs)
         == Err(KeyError(Library.NotFound("follow_up_token_send")))
  {
    Library.DefaultLacksFollowUp(svc.library);
  }

  /** The attestation request prompt has no inputs and comes back as its template. */
  lemma RequestAttestationUnformatted(svc: PromptService, kwargs: map<string, string>)
    requires svc.library.Valid() && svc.library.IsDefault()
    ensures svc.GetFormattedPrompt("request_attestation", kwargs)
         == Ok((Library.REMOTE_ATTESTATION, None, None))
  {
    Library.DefaultPromptsFound(svc.library, 5);
  }

  /**
   * The confirmation prompt links the explorer's page of the transaction: both
   * placeholders are replaced, whatever text the hash and the URL hold.
   */
  lemma TxConfirmationLinksExplorer(svc: PromptService, txHash: string, explorer: string)
    requires svc.library.Valid() && svc.library.IsDefault()
    ensures svc.GetFormattedPrompt("tx_confirmation", map["tx_hash" := txHash, "block_explorer" := explorer])
         == Ok(("[See transaction on Explorer](" + (explorer + ("/tx/" + (txHash + ")\n"))), None, None))
  {
    Library.DefaultPromptsFound(svc.library, 6);
    ConfirmationFilled(txHash, explorer);
  }

  /** Substituting both keys into the confirmation template. */
  lemma ConfirmationFilled(txHash: string, explorer: string)
    ensures Template.SafeSubstitute(Library.TX_CONFIRMATION, map["tx_hash" := txHash, "block_explorer" := explorer])
         == "[See transaction on Explorer](" + (explorer + ("/tx/" + (txHash + ")\n")))
  {
    var kw := map["tx_hash" := txHash, "block_explorer" := explorer];
    var pre := "[See transaction on Explorer](";
    assert '$' !in pre;
    Template.SubstituteBraced(pre, "block_explorer", "/tx/" + (Template.Placeholder("tx_hash") + ")\n"), kw);
    Template.SubstituteBraced("/tx/", "tx_hash", ")\n", kw);
    Template.SubstituteNoDollar(")\n", kw);
  }
}
