/**
 * The prompt library of src/flare_ai_core/prompts/library.py: a dict of prompts
 * keyed by name, filled with seven defaults when it is created.
 *
 * A Python dict remembers the order in which its keys were first inserted;
 * `names` keeps that order and `prompts` the entries.
 */
module Library {
  import opened Wrappers
  import opened Schemas
  import opened Template

  // Stand-ins for the templates of prompts/templates.py. The instructions are
  // paraphrased; each keeps exactly the placeholders of the original, and (like
  // the original) contains no other '$'.
  const SEMANTIC_ROUTER: string :=
    "Classify the user's message as one of the router's categories.\n" + (Placeholder("user_input") + "\n")
  const GENERATE_ACCOUNT: string :=
    "Tell the user a new account was created at\n" + (Placeholder("address") + "\n")
  const TOKEN_SEND: string :=
    "Extract the destination address and the amount to send from\n" + (Placeholder("user_input") + "\n")
  const TOKEN_SWAP: string :=
    "Extract the tokens and the amount to swap from\n" + (Placeholder("user_input") + "\n")
  const CONVERSATIONAL: string :=
    "Answer the user as a helpful assistant.\n" + (Placeholder("user_input") + "\n")
  const REMOTE_ATTESTATION: string :=
    "Ask the user for a challenge message to attest.\n"
  const TX_CONFIRMATION: string :=
    "[See transaction on Explorer](" + (Placeholder("block_explorer") + ("/tx/" + (Placeholder("tx_hash") + ")\n")))

  const SemanticRouterPrompt: Prompt := Prompt("semantic_router",
    "Route user query based on user input", SEMANTIC_ROUTER,
    Some(["user_input"]), Some(SemanticRouterSchema), Some("text/x.enum"), Some("router"), "1.0")
  const TokenSendPrompt: Prompt := Prompt("token_send",
    "Extract token send parameters from user input", TOKEN_SEND,
    Some(["user_input"]), Some(TokenSendSchema), Some("application/json"), Some("defai"), "1.0")
  const TokenSwapPrompt: Prompt := Prompt("token_swap",
    "Extract token swap parameters from user input", TOKEN_SWAP,
    Some(["user_input"]), Some(TokenSwapSchema), Some("application/json"), Some("defai"), "1.0")
  const GenerateAccountPrompt: Prompt := Prompt("generate_account",
    "Generate a new account for a user", GENERATE_ACCOUNT,
    Some(["address"]), None, None, Some("account"), "1.0")
  const ConversationalPrompt: Prompt := Prompt("conversational",
    "Converse with a user", CONVERSATIONAL,
    Some(["user_input"]), None, None, Some("conversational"), "1.0")
  const RequestAttestationPrompt: Prompt := Prompt("request_attestation",
    "User has requested a remote attestation", REMOTE_ATTESTATION,
    None, None, None, Some("conversational"), "1.0")
  const TxConfirmationPrompt: Prompt := Prompt("tx_confirmation",
    "Confirm a user's transaction", TX_CONFIRMATION,
    Some(["tx_hash", "block_explorer"]), None, None, Some("account"), "1.0")

  /** The seven default prompts, in the order the library adds them. */
  const Defaults: seq<Prompt> := [
    SemanticRouterPrompt, TokenSendPrompt, TokenSwapPrompt, GenerateAccountPrompt,
    ConversationalPrompt, RequestAttestationPrompt, TxConfirmationPrompt
  ]

  const DefaultNames: seq<string> := [
    "semantic_router", "token_send", "token_swap", "generate_account",
    "conversational", "request_attestation", "tx_confirmation"
  ]

  function NamesOf(ps: seq<Prompt>): seq<string> {
    seq(|ps|, i requires 0 <= i < |ps| => ps[i].name)
  }

  predicate Distinct(s: seq<string>) {
    forall i, j :: 0 <= i < j < |s| ==> s[i] != s[j]
  }

  /** The prompts of `names`, in that order, whose category is `category`. */
  function Filtered(names: seq<string>, prompts: map<string, Prompt>, category: string): (r: seq<Prompt>)
    requires forall n :: n in names ==> n in prompts
    ensures |r| <= |names|
    ensures forall p :: p in r ==> p.category == Some(category) && exists n :: n in names && prompts[n] == p
    ensures forall n :: n in names && prompts[n].category == Some(category) ==> prompts[n] in r
  {
    if names == [] then []
    else
      var rest := Filtered(names[1..], prompts, category);
      assert forall n :: n in names[1..] ==> n in names;
      var p := prompts[names[0]];
      if p.category == Some(category) then [p] + rest else rest
  }

  /** The message of the KeyError raised for a missing prompt. */
  function NotFound(name: string): string {
    "Prompt '" + name + "' not found in library"
  }

  /** The dict lookup behind get_prompt. */
  function Lookup(prompts: map<string, Prompt>, name: string): (r: Result<Prompt>)
    ensures r.Ok? <==> name in prompts
    ensures r.Ok? ==> r.value == prompts[name]
    ensures r.Err? ==> r.error == KeyError(NotFound(name))
  {
    if name in prompts then Ok(prompts[name]) else Err(KeyError(NotFound(name)))
  }

  class PromptLibrary {
    var prompts: map<string, Prompt>
    var names: seq<string>

    /** The dict's key order lists each key once, and every entry is filed under its own name. */
    ghost predicate Valid()
      reads this
    {
      Distinct(names)
      && (forall n :: n in names <==> n in prompts)
      && (forall n :: n in prompts ==> prompts[n].name == n)
    }

    /** The library right after construction: the seven defaults, in order. */
    ghost predicate IsDefault()
      reads this
    {
      names == DefaultNames
      && forall i :: 0 <= i < |Defaults| ==> DefaultNames[i] in prompts && prompts[DefaultNames[i]] == Defaults[i]
    }

    /** PromptLibrary(): an empty dict to which each default prompt is added in turn. */
    constructor ()
      ensures Valid() && IsDefault()
      ensures "follow_up_token_send" !in prompts
    {
      prompts := map[];
      names := [];
      new;
      DefaultsShape();
      AddPrompts(Defaults);
    }

    /**
     * The loop of _initialize_default_prompts: add_prompt for each prompt in turn,
     * here for prompts whose names are new and pairwise different.
     */
    method AddPrompts(ps: seq<Prompt>)
      requires Valid()
      requires Distinct(NamesOf(ps))
      requires forall p :: p in ps ==> p.name !in names
      modifies this
      ensures Valid()
      ensures names == old(names) + NamesOf(ps)
      ensures forall j :: 0 <= j < |ps| ==> ps[j].name in prompts && prompts[ps[j].name] == ps[j]
      ensures forall n :: n in old(prompts) ==> n in prompts && prompts[n] == old(prompts)[n]
    {
      for i := 0 to |ps|
        invariant Valid()
        invariant names == old(names) + NamesOf(ps[..i])
        invariant forall j :: 0 <= j < i ==> ps[j].name in prompts && prompts[ps[j].name] == ps[j]
        invariant forall n :: n in old(prompts) ==> n in prompts && prompts[n] == old(prompts)[n]
      {
        assert ps[i] in ps;
        NextNameIsNew(ps, i);
        UpdateKeepsEarlier(prompts, ps, i);
        AddPrompt(ps[i]);
      }
      assert ps[..|ps|] == ps;
    }

    /** add_prompt: file the prompt under its name, replacing any earlier one of that name. */
    method AddPrompt(p: Prompt)
      requires Valid()
      modifies this
      ensures Valid()
      ensures prompts == old(prompts)[p.name := p]
      ensures names == if p.name in old(names) then old(names) else old(names) + [p.name]
      ensures GetPrompt(p.name) == Ok(p)
      ensures forall n :: n != p.name ==> GetPrompt(n) == old(GetPrompt(n))
    {
      if p.name !in names {
        names := names + [p.name];
      }
      prompts := prompts[p.name := p];
    }

    /** get_prompt: the prompt of that name, or KeyError when there is none. */
    function GetPrompt(name: string): (r: Result<Prompt>)
      reads this
      ensures r.Ok? && Valid() ==> r.value.name == name
    {
      Lookup(prompts, name)
    }

    /** get_prompts_by_category: the library's prompts of that category, in the dict's order. */
    function GetPromptsByCategory(category: string): (r: seq<Prompt>)
      reads this
      requires Valid()
      ensures forall p :: p in r ==> p.category == Some(category) && GetPrompt(p.name) == Ok(p)
      ensures forall n :: n in prompts && prompts[n].category == Some(category) ==> prompts[n] in r
    {
      Filtered(names, prompts, category)
    }

    /**
     * list_categories: the distinct categories the library's prompts carry. The
     * source returns them as a list built from a set, in no particular order.
     */
    function ListCategories(): (r: set<string>)
      reads this
      requires Valid()
      ensures forall c :: c in r <==> GetPromptsByCategory(c) != []
    {
      var cats := set n | n in prompts && prompts[n].category.Some? :: prompts[n].category.value;
      assert forall c :: c in cats <==> GetPromptsByCategory(c) != [] by {
        forall c ensures c in cats <==> GetPromptsByCategory(c) != [] {
          var ps := GetPromptsByCategory(c);
          if c in cats {
            var n :| n in prompts && prompts[n].category == Some(c);
            assert prompts[n] in ps;
          }
          if ps != [] {
            assert ps[0] in ps;
            assert ps[0].name in prompts && prompts[ps[0].name].category == Some(c);
          }
        }
      }
      cats
    }
  }

  /** In a list of distinct names, the i-th is not among the ones before it. */
  lemma NextNameIsNew(ps: seq<Prompt>, i: nat)
    requires i < |ps| && Distinct(NamesOf(ps))
    ensures ps[i].name !in NamesOf(ps[..i])
    ensures forall j :: 0 <= j < i ==> ps[j].name != ps[i].name
    ensures NamesOf(ps[..i + 1]) == NamesOf(ps[..i]) + [ps[i].name]
  {
    assert forall j :: 0 <= j < |ps| ==> NamesOf(ps)[j] == ps[j].name;
  }

  /** Filing the i-th prompt under its new name keeps the earlier ones where they were. */
  lemma UpdateKeepsEarlier(m: map<string, Prompt>, ps: seq<Prompt>, i: nat)
    requires i < |ps| && forall j :: 0 <= j < i ==> ps[j].name != ps[i].name
    requires forall j :: 0 <= j < i ==> ps[j].name in m && m[ps[j].name] == ps[j]
    ensures forall j :: 0 <= j < i + 1 ==>
      ps[j].name in m[ps[i].name := ps[i]] && m[ps[i].name := ps[i]][ps[j].name] == ps[j]
  {
  }

  /** The defaults carry the seven names, each once; no follow-up prompt is among them. */
  lemma DefaultsShape()
    ensures |Defaults| == |DefaultNames| == 7
    ensures NamesOf(Defaults) == DefaultNames
    ensures Distinct(DefaultNames)
    ensures "follow_up_token_send" !in DefaultNames
  {
  }

  /** The prompts of ps whose category is `category`, in order. */
  function PromptsOf(ps: seq<Prompt>, category: string): seq<Prompt> {
    if ps == [] then []
    else if ps[0].category == Some(category) then [ps[0]] + PromptsOf(ps[1..], category)
    else PromptsOf(ps[1..], category)
  }

  /** Filtering a dict through its key order is filtering its values in that order. */
  lemma {:induction false} FilteredValues(ns: seq<string>, prompts: map<string, Prompt>, ps: seq<Prompt>, c: string)
    requires |ns| == |ps|
    requires forall k :: 0 <= k < |ns| ==> ns[k] in prompts && prompts[ns[k]] == ps[k]
    ensures Filtered(ns, prompts, c) == PromptsOf(ps, c)
  {
    if ns != [] {
      FilteredValues(ns[1..], prompts, ps[1..], c);
    }
  }

  lemma {:induction false} PromptsOfEmpty(ps: seq<Prompt>, c: string)
    ensures PromptsOf(ps, c) == [] <==> forall p :: p in ps ==> p.category != Some(c)
  {
    if ps != [] {
      PromptsOfEmpty(ps[1..], c);
      assert forall p :: p in ps <==> p == ps[0] || p in ps[1..];
    }
  }

  /** The default library finds each of its seven prompts by name. */
  lemma DefaultPromptsFound(lib: PromptLibrary, i: nat)
    requires lib.Valid() && lib.IsDefault() && i < |Defaults|
    ensures lib.GetPrompt(Defaults[i].name) == Ok(Defaults[i])
  {
    DefaultsShape();
  }

  /** It has no follow-up prompt, so asking for one raises KeyError. */
  lemma DefaultLacksFollowUp(lib: PromptLibrary)
    requires lib.Valid() && lib.IsDefault()
    ensures lib.GetPrompt("follow_up_token_send")
         == Err(KeyError(NotFound("follow_up_token_send")))
  {
    DefaultsShape();
  }

  lemma PromptsOfCons(p: Prompt, rest: seq<Prompt>, c: string)
    ensures PromptsOf([p] + rest, c)
         == if p.category == Some(c) then [p] + PromptsOf(rest, c) else PromptsOf(rest, c)
  {
    assert ([p] + rest)[1..] == rest;
  }

  /** Among the defaults, the "defai" prompts are the send and swap extractors, in that order. */
  lemma DefaiOfDefaults()
    ensures PromptsOf(Defaults, "defai") == [TokenSendPrompt, TokenSwapPrompt]
  {
    var tail := [GenerateAccountPrompt, ConversationalPrompt, RequestAttestationPrompt, TxConfirmationPrompt];
    assert Defaults == [SemanticRouterPrompt] + ([TokenSendPrompt] + ([TokenSwapPrompt] + tail));
    assert SemanticRouterPrompt.category == Some("router");
    assert TokenSendPrompt.category == Some("defai") && TokenSwapPrompt.category == Some("defai");
    PromptsOfEmpty(tail, "defai");
    PromptsOfCons(TokenSwapPrompt, tail, "defai");
    assert PromptsOf([TokenSwapPrompt] + tail, "defai") == [TokenSwapPrompt];
    PromptsOfCons(TokenSendPrompt, [TokenSwapPrompt] + tail, "defai");
    assert PromptsOf([TokenSendPrompt] + ([TokenSwapPrompt] + tail), "defai") == [TokenSendPrompt, TokenSwapPrompt];
    PromptsOfCons(SemanticRouterPrompt, [TokenSendPrompt] + ([TokenSwapPrompt] + tail), "defai");
  }

  /** Every default carries one of four categories. */
  lemma DefaultCategoryValues()
    ensures forall p :: p in Defaults ==>
      p.category.Some? && p.category.value in {"router", "defai", "account", "conversational"}
  {
  }

  /** The categories the defaults carry are router, defai, account and conversational. */
  lemma CategoriesOfDefaults(c: string)
    ensures PromptsOf(Defaults, c) != [] <==> c in {"router", "defai", "account", "conversational"}
  {
    PromptsOfEmpty(Defaults, c);
    DefaultCategoryValues();
    if c == "router" {
      assert SemanticRouterPrompt in Defaults;
    } else if c == "defai" {
      assert TokenSendPrompt in Defaults;
    } else if c == "account" {
      assert GenerateAccountPrompt in Defaults;
    } else if c == "conversational" {
      assert ConversationalPrompt in Defaults;
    }
  }

  /** The default library's "defai" prompts are the send and swap extractors, in that order. */
  lemma DefaultDefaiPrompts(lib: PromptLibrary)
    requires lib.Valid() && lib.IsDefault()
    ensures lib.GetPromptsByCategory("defai") == [TokenSendPrompt, TokenSwapPrompt]
  {
    DefaultsShape();
    FilteredValues(lib.names, lib.prompts, Defaults, "defai");
    DefaiOfDefaults();
  }

  /** Its categories are exactly router, defai, account and conversational. */
  lemma DefaultCategories(lib: PromptLibrary)
    requires lib.Valid() && lib.IsDefault()
    ensures lib.ListCategories() == {"router", "defai", "account", "conversational"}
  {
    DefaultsShape();
    forall c ensures c in lib.ListCategories() <==> c in {"router", "defai", "account", "conversational"} {
      FilteredValues(lib.names, lib.prompts, Defaults, c);
      CategoriesOfDefaults(c);
    }
  }
}
