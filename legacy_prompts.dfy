/**
 * The older prompt library of src/flare_ai_core/models/prompt_library.py, used
 * by the legacy app: the same Prompt record and intent enumeration, a format
 * that refuses prompts without required inputs, nine default prompts
 * (follow-up prompts included), and a get_prompt whose error path names an
 * undefined logger.
 */
module LegacyPrompts {
  import opened Wrappers
  import opened Schemas
  import opened Template
  import Library

  // Stand-ins for the module's template strings. The instructions are
  // paraphrased; each keeps exactly the placeholders of the original and, like
  // the original, contains no other '$'.
  const SEMANTIC_ROUTER: string := "Pick the response that fits\n" + (Placeholder("user_input") + "\n")
  const GENERATE_ACCOUNT: string := "Welcome the user to\n" + (Placeholder("address") + "\n")
  const TOKEN_SEND: string := "Find address and amount in\n" + (Placeholder("user_input") + "\n")
  const TOKEN_SEND_FOLLOW_UP: string := "Ask for an address and amount.\n"
  const TOKEN_SWAP: string := "Find the tokens and amount in\n" + (Placeholder("user_input") + "\n")
  const TOKEN_SWAP_FOLLOW_UP: string := "Ask for two tokens and amount.\n"
  const CONVERSATIONAL: string := "Respond creatively to\n" + (Placeholder("user_input") + "\n")
  const TX_CONFIRMATION: string := "Congratulate, quoting\n" + (Placeholder("tx_hash") + "\n")
  const REMOTE_ATTESTATION: string := "Ask for a random message.\n"

  const SemanticRouterPrompt: Prompt := Prompt("semantic_router",
    "Route user query based on user input", SEMANTIC_ROUTER,
    Some(["user_input"]), Some(SemanticRouterSchema), Some("text/x.enum"), Some("router"), "1.0")
  const TokenSendPrompt: Prompt := Prompt("token_send",
    "Extract token send parameters from user input", TOKEN_SEND,
    Some(["user_input"]), Some(TokenSendSchema), Some("application/json"), Some("defai"), "1.0")
  const FollowUpTokenSendPrompt: Prompt := Prompt("follow_up_token_send",
    "Follow up with a user about sending tokens", TOKEN_SEND_FOLLOW_UP,
    None, None, None, Some("follow_up"), "1.0")
  const TokenSwapPrompt: Prompt := Prompt("token_swap",
    "Extract token swap parameters from user input", TOKEN_SWAP,
    Some(["user_input"]), Some(TokenSwapSchema), Some("application/json"), Some("defai"), "1.0")
  const FollowUpTokenSwapPrompt: Prompt := Prompt("follow_up_token_swap",
    "Follow up with a user about swapping tokens", TOKEN_SWAP_FOLLOW_UP,
    None, None, None, Some("follow_up"), "1.0")
  const GenerateAccountPrompt: Prompt := Prompt("generate_account",
    "Generate a new account for a user", GENERATE_ACCOUNT,
    Some(["address"]), None, None, Some("account"), "1.0")
  const TxConfirmationPrompt: Prompt := Prompt("tx_confirmation",
    "Confirm a user's transaction", TX_CONFIRMATION,
    Some(["tx_hash"]), None, None, Some("account"), "1.0")
  const ConversationalPrompt: Prompt := Prompt("conversational",
    "Converse with a user", CONVERSATIONAL,
    Some(["user_input"]), None, None, Some("conversational"), "1.0")
  const RequestAttestationPrompt: Prompt := Prompt("request_attestation",
    "User has requested a remote attestation", REMOTE_ATTESTATION,
    None, None, None, Some("conversational"), "1.0")

  /** The nine default prompts, in the order the library adds them. */
  const Defaults: seq<Prompt> := [
    SemanticRouterPrompt, TokenSendPrompt, FollowUpTokenSendPrompt, TokenSwapPrompt,
    FollowUpTokenSwapPrompt, GenerateAccountPrompt, TxConfirmationPrompt,
    ConversationalPrompt, RequestAttestationPrompt
  ]

  /**
   * Prompt.format of this file: a prompt without required inputs raises
   * ValueError; otherwise the template's safe substitution, which raises no
   * KeyError, so the handler for one is unreachable.
   */
  function Format(p: Prompt, kwargs: map<string, string>): (r: Result<string>)
    ensures r.Err? <==> NoInputs(p)
    ensures r.Err? ==> r.error == ValueError("Nothing to format")
    ensures r.Ok? ==> r.value == Schemas.Format(p, kwargs)
  {
    if NoInputs(p) then Err(ValueError("Nothing to format"))
    else Ok(SafeSubstitute(p.template, kwargs))
  }

  /** Where it does not raise, it substitutes supplied braced placeholders and keeps unsupplied ones. */
  lemma FormatReplacesBraced(p: Prompt, pre: string, k: string, post: string, kwargs: map<string, string>)
    requires !NoInputs(p)
    requires p.template == pre + (Placeholder(k) + post)
    requires '$' !in pre && IsIdentifier(k)
    ensures Format(p, kwargs)
         == Ok(pre + ((if k in kwargs then kwargs[k] else Placeholder(k)) + SafeSubstitute(post, kwargs)))
  {
    Schemas.FormatReplacesBraced(p, pre, k, post, kwargs);
  }

  /** The message of the error get_prompt raises for a missing name: logging through an undefined name fails first. */
  const LoggerUndefined: string := "name 'logger' is not defined"

  class LegacyPromptLibrary {
    var prompts: map<string, Prompt>
    var names: seq<string>

    /** The dict's key order lists each key once, and every entry is filed under its own name. */
    ghost predicate Valid()
      reads this
    {
      Library.Distinct(names)
      && (forall n :: n in names <==> n in prompts)
      && (forall n :: n in prompts ==> prompts[n].name == n)
    }

    /** The library right after construction: the nine defaults, in order. */
    ghost predicate IsDefault()
      reads this
    {
      names == Library.NamesOf(Defaults)
      && forall i :: 0 <= i < |Defaults| ==> Defaults[i].name in prompts && prompts[Defaults[i].name] == Defaults[i]
    }

    /** PromptLibrary(): an empty dict to which each default prompt is added in turn. */
    constructor ()
      ensures Valid() && IsDefault()
    {
      prompts := map[];
      names := [];
      new;
      DefaultsDistinct();
      AddPrompts(Defaults);
    }

    /** The loop of _initialize_default_prompts, for prompts whose names are new and pairwise different. */
    method AddPrompts(ps: seq<Prompt>)
      requires Valid()
      requires Library.Distinct(Library.NamesOf(ps))
      requires forall p :: p in ps ==> p.name !in names
      modifies this
      ensures Valid()
      ensures names == old(names) + Library.NamesOf(ps)
      ensures forall j :: 0 <= j < |ps| ==> ps[j].name in prompts && prompts[ps[j].name] == ps[j]
    {
      for i := 0 to |ps|
        invariant Valid()
        invariant names == old(names) + Library.NamesOf(ps[..i])
        invariant forall j :: 0 <= j < i ==> ps[j].name in prompts && prompts[ps[j].name] == ps[j]
      {
        assert ps[i] in ps;
        Library.NextNameIsNew(ps, i);
        Library.UpdateKeepsEarlier(prompts, ps, i);
        AddPrompt(ps[i]);
      }
      assert ps[..|ps|] == ps;
    }

    /** add_prompt: file the prompt under its name, replacing any earlier one of that name. */
    method AddPrompt(p: Prompt)
      requires Valid()
      modifies this
      ensures Valid()
      ensures prompts == old(prompts)[p.name := p]
      ensures names == if p.name in old(names) then old(names) else old(names) + [p.name]
    {
      if p.name !in names {
        names := names + [p.name];
      }
      prompts := prompts[p.name := p];
    }

    /** get_prompt: the prompt of that name; for a missing name the NameError of the logging call. */
    function GetPrompt(name: string): (r: Result<Prompt>)
      reads this
      ensures r.Ok? <==> name in prompts
      ensures r.Ok? ==> r.value == prompts[name]
      ensures r.Err? ==> r.error == NameError(LoggerUndefined)
    {
      if name in prompts then Ok(prompts[name]) else Err(NameError(LoggerUndefined))
    }

    /** get_prompts_by_category: the library's prompts of that category, in the dict's order. */
    function GetPromptsByCategory(category: string): (r: seq<Prompt>)
      reads this
      requires Valid()
      ensures forall p :: p in r ==> p.category == Some(category) && GetPrompt(p.name) == Ok(p)
      ensures forall n :: n in prompts && prompts[n].category == Some(category) ==> prompts[n] in r
    {
      Library.Filtered(names, prompts, category)
    }

    /** list_categories: the distinct categories of the library's prompts, as a set. */
    function ListCategories(): (r: set<string>)
      reads this
      requires Valid()
      ensures forall c :: c in r <==> exists n :: n in prompts && prompts[n].category == Some(c)
    {
      set n | n in prompts && prompts[n].category.Some? :: prompts[n].category.value
    }
  }

  /** The default names are pairwise different and fresh in an empty library. */
  lemma DefaultsDistinct()
    ensures Library.Distinct(Library.NamesOf(Defaults))
  {
    assert Library.NamesOf(Defaults) == [
      "semantic_router", "token_send", "follow_up_token_send", "token_swap", "follow_up_token_swap",
      "generate_account", "tx_confirmation", "conversational", "request_attestation"];
  }

  /** The default library holds exactly the nine defaults, both follow-up prompts among them. */
  lemma DefaultHoldsNine(lib: LegacyPromptLibrary)
    requires lib.Valid() && lib.IsDefault()
    ensures |lib.prompts| == 9
    ensures lib.GetPrompt("follow_up_token_send") == Ok(FollowUpTokenSendPrompt)
    ensures lib.GetPrompt("follow_up_token_swap") == Ok(FollowUpTokenSwapPrompt)
  {
    DefaultsDistinct();
    assert Defaults[2] == FollowUpTokenSendPrompt && Defaults[4] == FollowUpTokenSwapPrompt;
    assert lib.prompts.Keys == set n | n in lib.names;
    DistinctCard(lib.names);
  }

  /** A list of distinct names has as many elements as its set. */
  lemma {:induction false} DistinctCard(s: seq<string>)
    requires Library.Distinct(s)
    ensures |set n | n in s| == |s|
  {
    if s != [] {
      var t := s[1..];
      assert Library.Distinct(t);
      DistinctCard(t);
      assert (set n | n in s) == (set n | n in t) + {s[0]};
      assert s[0] !in t;
    }
  }

  /** The follow-up prompt is present but cannot be formatted: it has no required inputs. */
  lemma FollowUpUnformattable(lib: LegacyPromptLibrary, kwargs: map<string, string>)
    requires lib.Valid() && lib.IsDefault()
    ensures lib.GetPrompt("follow_up_token_send").Ok?
    ensures Format(lib.GetPrompt("follow_up_token_send").value, kwargs) == Err(ValueError("Nothing to format"))
  {
    DefaultHoldsNine(lib);
  }

  /** Here tx_confirmation needs only the hash, and formatting it fills that in. */
  lemma TxConfirmationNeedsHashOnly(lib: LegacyPromptLibrary, txHash: string)
    requires lib.Valid() && lib.IsDefault()
    ensures lib.GetPrompt("tx_confirmation") == Ok(TxConfirmationPrompt)
    ensures TxConfirmationPrompt.requiredInputs == Some(["tx_hash"])
    ensures Format(TxConfirmationPrompt, map["tx_hash" := txHash]) == Ok("Congratulate, quoting\n" + (txHash + "\n"))
  {
    assert Defaults[6] == TxConfirmationPrompt;
    var kw := map["tx_hash" := txHash];
    var pre := "Congratulate, quoting\n";
    assert '$' !in pre;
    SubstituteBraced(pre, "tx_hash", "\n", kw);
    SubstituteNoDollar("\n", kw);
  }

  /** A missing name raises NameError, not KeyError. */
  lemma MissingIsNameError(lib: LegacyPromptLibrary)
    requires lib.Valid() && lib.IsDefault()
    ensures lib.GetPrompt("sentiment_analysis") == Err(NameError(LoggerUndefined))
  {
    DefaultsDistinct();
    assert "sentiment_analysis" !in Library.NamesOf(Defaults);
  }
}
