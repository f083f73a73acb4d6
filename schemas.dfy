/**
 * The router's intent enumeration, the response schemas handed to the model
 * service, and the Prompt record with its format operation, as declared in
 * src/flare_ai_core/prompts/schemas.py (src/flare_ai_core/prompt_service/schemas.py
 * is an identical copy and is modelled by the same members).
 */
module Schemas {
  import opened Wrappers
  import Template

  /** SemanticRouterResponse: a str-valued enumeration with five members. */
  datatype SemanticRouterResponse =
    | GenerateAccount
    | SendToken
    | SwapToken
    | RequestAttestation
    | Conversational
  {
    /** The member's string value. */
    function Value(): string {
      match this
      case GenerateAccount => "GenerateAccount"
      case SendToken => "SendToken"
      case SwapToken => "SwapToken"
      case RequestAttestation => "RequestAttestation"
      case Conversational => "Conversational"
    }
  }

  /** The members in declaration order, as iterating the enumeration yields them. */
  const Members: seq<SemanticRouterResponse> :=
    [GenerateAccount, SendToken, SwapToken, RequestAttestation, Conversational]

  /**
   * SemanticRouterResponse(s): the member whose value is exactly s; any other
   * string fails to convert (Python raises ValueError, here None).
   */
  function FromValue(s: string): (r: Option<SemanticRouterResponse>)
    ensures r.Some? ==> r.value.Value() == s
    ensures r.None? ==> forall m: SemanticRouterResponse :: m.Value() != s
  {
    if s == "GenerateAccount" then Some(GenerateAccount)
    else if s == "SendToken" then Some(SendToken)
    else if s == "SwapToken" then Some(SwapToken)
    else if s == "RequestAttestation" then Some(RequestAttestation)
    else if s == "Conversational" then Some(Conversational)
    else None
  }

  /** Converting a member's value gives the member back. */
  lemma FromValueOfValue(m: SemanticRouterResponse)
    ensures FromValue(m.Value()) == Some(m)
  {
  }

  /** There are exactly five members, with five distinct values. */
  lemma ExactlyFiveMembers()
    ensures |Members| == 5
    ensures forall m: SemanticRouterResponse :: m in Members
    ensures forall i, j :: 0 <= i < j < |Members| ==> Members[i].Value() != Members[j].Value()
  {
    forall m: SemanticRouterResponse ensures m in Members {
      match m
      case GenerateAccount => assert Members[0] == m;
      case SendToken => assert Members[1] == m;
      case SwapToken => assert Members[2] == m;
      case RequestAttestation => assert Members[3] == m;
      case Conversational => assert Members[4] == m;
    }
  }

  /** The `response_schema` types the prompts name. */
  datatype ResponseSchema =
    | SemanticRouterSchema  // SemanticRouterResponse
    | TokenSendSchema       // TokenSendResponse {to_address: str, amount: float}
    | TokenSwapSchema       // TokenSwapResponse {from_token: str, to_token: str, amount: float}

  /** The Prompt dataclass (its unused `examples` field is omitted). */
  datatype Prompt = Prompt(
    name: string,
    description: string,
    template: string,
    requiredInputs: Option<seq<string>>,
    responseSchema: Option<ResponseSchema>,
    responseMimeType: Option<string>,
    category: Option<string>,
    version: string)

  /** `not self.required_inputs`: None or the empty list. */
  predicate NoInputs(p: Prompt) {
    p.requiredInputs.None? || p.requiredInputs.value == []
  }

  /**
   * Prompt.format: the template itself when there are no required inputs,
   * otherwise its safe substitution by the keyword arguments. It never raises:
   * safe_substitute raises no KeyError, so the handler for one is unreachable.
   */
  function Format(p: Prompt, kwargs: map<string, string>): (r: string)
    ensures NoInputs(p) ==> r == p.template
    ensures '$' !in p.template ==> r == p.template
  {
    if NoInputs(p) then p.template
    else
      var r := Template.SafeSubstitute(p.template, kwargs);
      assert '$' !in p.template ==> r == p.template by {
        if '$' !in p.template {
          Template.SubstituteNoDollar(p.template, kwargs);
        }
      }
      r
  }

  /** Without required inputs the keyword arguments are ignored altogether. */
  lemma FormatIgnoresKwargsWithoutInputs(p: Prompt, k1: map<string, string>, k2: map<string, string>)
    requires NoInputs(p)
    ensures Format(p, k1) == Format(p, k2) == p.template
  {
  }

  /**
   * A supplied braced placeholder is replaced by its value and an unsupplied one
   * is kept verbatim.
   */
  lemma FormatReplacesBraced(p: Prompt, pre: string, k: string, post: string, kwargs: map<string, string>)
    requires !NoInputs(p)
    requires p.template == pre + (Template.Placeholder(k) + post)
    requires '$' !in pre && Template.IsIdentifier(k)
    ensures Format(p, kwargs)
         == pre + ((if k in kwargs then kwargs[k] else Template.Placeholder(k)) + Template.SafeSubstitute(post, kwargs))
  {
    Template.SubstituteBraced(pre, k, post, kwargs);
  }

  /** The same for a named placeholder "$k" that no identifier character follows. */
  lemma FormatReplacesNamed(p: Prompt, pre: string, k: string, post: string, kwargs: map<string, string>)
    requires !NoInputs(p)
    requires p.template == pre + ("$" + (k + post))
    requires '$' !in pre && Template.IsIdentifier(k)
    requires post == [] || !Template.IsIdChar(post[0])
    ensures Format(p, kwargs)
         == pre + ((if k in kwargs then kwargs[k] else "$" + k) + Template.SafeSubstitute(post, kwargs))
  {
    Template.SubstituteNamed(pre, k, post, kwargs);
  }

  /** Keyword arguments that name no placeholder of the template have no effect. */
  lemma FormatIgnoresExtraKwargs(p: Prompt, kwargs: map<string, string>, k: string, v: string)
    requires k !in Template.Placeholders(p.template)
    ensures Format(p, kwargs[k := v]) == Format(p, kwargs)
  {
    if !NoInputs(p) {
      Template.SubstituteIgnoresExtra(p.template, kwargs, k, v);
    }
  }

  /** Placeholders left unsupplied stay verbatim, with no error raised. */
  lemma FormatLeavesUnsupplied(p: Prompt, kwargs: map<string, string>)
    requires Template.Placeholders(p.template) !! kwargs.Keys
    requires Template.Escape !in Template.Lex(p.template)
    ensures Format(p, kwargs) == p.template
  {
    if !NoInputs(p) {
      Template.SubstituteUnsupplied(p.template, kwargs);
    }
  }
}
