/**
 * The legacy chat endpoint of src/flare_ai_core/app.py. Its priority order
 * differs from the current router: only "/reset" is a command; any pending
 * transaction makes every other message its confirmation; a non-empty RA_QUEUE
 * makes the message a nonce; otherwise the message is routed by intent.
 *
 * USER_ACCOUNT is an AgentAccount of a module that is not part of this model;
 * the Flare store stands in for it, with send_tx_in_queue in place of
 * send_confirmed_tx_and_pop_queue (whose message argument is then unused).
 */
module LegacyApp {
  import opened Wrappers
  import opened Text
  import opened JsonValues
  import opened Schemas
  import opened Ai
  import opened VtpmProtocol
  import opened Blockchain
  import opened Collaborators
  import opened LegacyPrompts
  import Attestation

  /** The endpoint's answer: a response body, an HTTPException(500) with str(e), or an exception no handler caught. */
  datatype AppResponse = Answer(response: string) | HttpError(detail: string) | Uncaught(error: Error)

  /** The mutable state: USER_ACCOUNT's fields and the module-global RA_QUEUE. */
  datatype AppState = AppState(wallet: Wallet, raQueue: seq<string>)

  /** What the app reads but never changes: the library's entries and the attestation client's settings. */
  datatype AppConfig = AppConfig(prompts: map<string, Prompt>, simulate: bool, simToken: string)

  /** LIBRARY.get_prompt */
  function Lookup(cfg: AppConfig, name: string): Result<Prompt> {
    if name in cfg.prompts then Ok(cfg.prompts[name]) else Err(NameError(LoggerUndefined))
  }

  /** get_prompt, format with the arguments, and a plain generate of the result. */
  function AskPlain(cfg: AppConfig, env: Env, name: string, kwargs: map<string, string>): Result<string> {
    var p :- Lookup(cfg, name);
    var text :- LegacyPrompts.Format(p, kwargs);
    Ask(env.ai, Plain(text))
  }

  /** get_prompt, format with the arguments, and generate with the prompt's MIME type and schema. */
  function GenerateWith(cfg: AppConfig, env: Env, name: string, kwargs: map<string, string>): Result<Response> {
    var p :- Lookup(cfg, name);
    var text :- LegacyPrompts.Format(p, kwargs);
    env.ai.generate(GenRequest(text, p.responseMimeType, p.responseSchema))
  }

  /** GenerateWith, and the text of its response read at once. */
  function AskWith(cfg: AppConfig, env: Env, name: string, kwargs: map<string, string>): Result<string> {
    var res :- GenerateWith(cfg, env, name, kwargs);
    env.ai.text(res)
  }

  /** map_to_enum: the member whose value is the string, else ValueError. */
  function MapToEnum(value: string): (r: Result<SemanticRouterResponse>)
    ensures r.Ok? <==> exists m: SemanticRouterResponse :: m.Value() == value
    ensures r.Ok? ==> r.value.Value() == value
    ensures r.Err? ==> r.error == ValueError("No matching enum value for: " + value)
  {
    match FromValue(value)
    case Some(m) => Ok(m)
    case None => Err(ValueError("No matching enum value for: " + value))
  }

  /** The classification handle_semantic_routing asks for, with every way it can fail. */
  function Classify(cfg: AppConfig, env: Env, message: string): Result<SemanticRouterResponse> {
    var text :- AskWith(cfg, env, "semantic_router", map["user_input" := message]);
    MapToEnum(Strip(text, '"'))
  }

  /** handle_semantic_routing: surrounding double quotes are stripped, and any failure falls back to Conversational. */
  function SemanticRouting(cfg: AppConfig, env: Env, message: string): SemanticRouterResponse {
    match Classify(cfg, env, message)
    case Ok(route) => route
    case Err(_) => Conversational
  }

  /** handle_generate_account: a new account, announced by the model; its exceptions propagate. */
  function GenerateAccountStep(w: Wallet, cfg: AppConfig, env: Env): (Result<string>, Wallet) {
    var (address, w') := Generated(w, env.account);
    (AskPlain(cfg, env, "generate_account", map["address" := address]), w')
  }

  /** The transaction preview of the legacy handle_send_token. */
  function Preview(fromWei: nat -> string, tx: TxParams): string {
    "Transaction Preview:\nSending " + (fromWei(tx.value) + (" FLR to " + (tx.to + "\nType CONFIRM to proceed.")))
  }

  /** The try block of handle_send_token, given the model's response, whose text is read first. */
  function SendTokenTry(w: Wallet, cfg: AppConfig, env: Env, res: Response, userInput: string): (Result<string>, Wallet) {
    var text := env.ai.text(res);
    if text.Err? then (Err(text.error), w) else
    match env.loads(text.value)
    case Err(e) => (Err(e), w)
    case Ok(j) =>
      match NeedsFollowUp(j)
      case Err(e) => (Err(e), w)
      case Ok(true) => (AskPlain(cfg, env, "follow_up_token_send", map[]), w)
      case Ok(false) =>
        match SendFlrTx(w, Get(j, "to_address").value, Get(j, "amount").value, env.node)
        case Err(e) => (Err(e), w)
        case Ok(tx) => (Ok(Preview(env.fromWei, tx)), Enqueue(w, userInput, tx))
  }

  /**
   * handle_send_token: the prompt and the generate call may raise; what
   * follows, reading the response's text included, is caught and reported as
   * "Error creating transaction: ...".
   */
  function SendTokenStep(w: Wallet, cfg: AppConfig, env: Env, userInput: string): (Result<string>, Wallet) {
    match GenerateWith(cfg, env, "token_send", map["user_input" := userInput])
    case Err(e) => (Err(e), w)
    case Ok(res) =>
      var (r, w') := SendTokenTry(w, cfg, env, res, userInput);
      match r
      case Ok(reply) => (Ok(reply), w')
      case Err(e) => (Ok("Error creating transaction: " + ErrorText(e)), w')
  }

  /** handle_swap_token: the model's reading of the swap, returned as it is. */
  function SwapTokenStep(cfg: AppConfig, env: Env, message: string): Result<string> {
    AskWith(cfg, env, "token_swap", map["user_input" := message])
  }

  /** handle_remote_attestation: the model's request text, appended to RA_QUEUE only on success. */
  function RemoteAttestationStep(s: AppState, cfg: AppConfig, env: Env): (string, AppState) {
    var res := (var p :- Lookup(cfg, "request_attestation"); Ask(env.ai, Plain(p.template)));
    match res
    case Ok(text) => (text, s.(raQueue := s.raQueue + [text]))
    case Err(e) => ("Error confirming tx: " + ErrorText(e), s)
  }

  /** handle_confirmed_tx: send and pop the last transaction, then announce it; every failure is reported. */
  function ConfirmedTxStep(w: Wallet, cfg: AppConfig, env: Env): (string, Wallet) {
    var (sent, w') := SendQueued(w, env.node);
    var res := (var hash :- sent; AskPlain(cfg, env, "tx_confirmation", map["tx_hash" := hash]));
    match res
    case Ok(text) => (text, w')
    case Err(e) => ("Error confirming tx: " + ErrorText(e), w')
  }

  /** An account is generated first when there is none; the handler's reply replaces the announcement. */
  function WithAccount(w: Wallet, cfg: AppConfig, env: Env): (Result<string>, Wallet) {
    if Truthy(w.address) then (Ok(""), w) else GenerateAccountStep(w, cfg, env)
  }

  /** The match on the route inside the endpoint's try block. */
  function RouteStep(route: SemanticRouterResponse, s: AppState, cfg: AppConfig, env: Env, message: string): (Result<string>, AppState) {
    match route
    case GenerateAccount =>
      if Truthy(s.wallet.address) then (Ok("Account already exists - " + s.wallet.address.value), s)
      else
        var (r, w) := GenerateAccountStep(s.wallet, cfg, env);
        (r, s.(wallet := w))
    case SendToken =>
      var (made, w) := WithAccount(s.wallet, cfg, env);
      if made.Err? then (Err(made.error), s.(wallet := w))
      else
        var (r, w') := SendTokenStep(w, cfg, env, message);
        (r, s.(wallet := w'))
    case SwapToken =>
      var (made, w) := WithAccount(s.wallet, cfg, env);
      if made.Err? then (Err(made.error), s.(wallet := w))
      else (SwapTokenStep(cfg, env, message), s.(wallet := w))
    case RequestAttestation =>
      var (text, s') := RemoteAttestationStep(s, cfg, env);
      (Ok(text), s')
    case Conversational =>
      (AskPlain(cfg, env, "conversational", map["user_input" := message]), s)
  }

  /** The reply and new state of the legacy chat endpoint for one message. */
  function ChatStep(s: AppState, message: string, cfg: AppConfig, env: Env): (AppResponse, AppState) {
    if message == "/reset" then (Answer("Reset account history"), s.(wallet := Empty))
    else if s.wallet.txQueue != [] then
      var (text, w) := ConfirmedTxStep(s.wallet, cfg, env);
      (Answer(text), s.(wallet := w))
    else if s.raQueue != [] then
      match SyncToken(cfg.simulate, cfg.simToken, [message], DEFAULT_AUDIENCE, DEFAULT_TOKEN_TYPE, env.service)
      case Ok(token) => (Answer(token), s.(raQueue := []))
      case Err(e) => (Uncaught(e), s)
    else
      var (r, s') := RouteStep(SemanticRouting(cfg, env, message), s, cfg, env, message);
      match r
      case Ok(text) => (Answer(text), s')
      case Err(e) => (HttpError(ErrorText(e)), s')
  }

  class App {
    const library: LegacyPromptLibrary
    /** USER_ACCOUNT */
    const account: Flare
    /** ATTESTATION */
    const attestation: Attestation.VtpmAttestation
    /** RA_QUEUE: the model's attestation requests still waiting for their nonce. */
    var raQueue: seq<string>

    constructor (library: LegacyPromptLibrary, account: Flare, attestation: Attestation.VtpmAttestation)
      ensures this.library == library && this.account == account && this.attestation == attestation
      ensures raQueue == []
    {
      this.library := library;
      this.account := account;
      this.attestation := attestation;
      raQueue := [];
    }

    function State(): AppState
      reads this, account
    {
      AppState(account.State(), raQueue)
    }

    function Cfg(): AppConfig
      reads library
    {
      AppConfig(library.prompts, attestation.simulate, attestation.simToken)
    }

    /** The chat endpoint; the message may be empty. */
    method Chat(message: string, env: Env) returns (r: AppResponse)
      modifies this, account
      ensures (r, State()) == ChatStep(old(State()), message, Cfg(), env)
    {
      if StartsWith(message, "/") && message == "/reset" {
        var res := account.Reset();
        return Answer(res);
      }
      if account.txQueue != [] {
        var text := HandleConfirmedTx(message, env);
        return Answer(text);
      }
      if raQueue != [] {
        var token := attestation.GetToken([message], DEFAULT_AUDIENCE, DEFAULT_TOKEN_TYPE, env.service);
        if token.Err? {
          return Uncaught(token.error);
        }
        raQueue := [];
        return Answer(token.value);
      }
      var route := SemanticRouting(Cfg(), env, message);
      var reply := RouteMessage(route, message, env);
      if reply.Err? {
        return HttpError(ErrorText(reply.error));
      }
      r := Answer(reply.value);
    }

    /** The match on the route inside the endpoint's try block. */
    method RouteMessage(route: SemanticRouterResponse, message: string, env: Env) returns (r: Result<string>)
      modifies this, account
      ensures (r, State()) == RouteStep(route, old(State()), Cfg(), env, message)
    {
      match route {
        case GenerateAccount =>
          if Truthy(account.address) {
            r := Ok("Account already exists - " + account.address.value);
          } else {
            r := HandleGenerateAccount(env);
          }
        case SendToken =>
          r := Ok("");
          if !Truthy(account.address) {
            r := HandleGenerateAccount(env);
          }
          if r.Ok? {
            r := HandleSendToken(message, env);
          }
        case SwapToken =>
          r := Ok("");
          if !Truthy(account.address) {
            r := HandleGenerateAccount(env);
          }
          if r.Ok? {
            r := SwapTokenStep(Cfg(), env, message);
          }
        case RequestAttestation =>
          var text := HandleRemoteAttestation(env);
          r := Ok(text);
        case Conversational =>
          r := AskPlain(Cfg(), env, "conversational", map["user_input" := message]);
      }
    }

    method HandleGenerateAccount(env: Env) returns (r: Result<string>)
      modifies account
      ensures (r, account.State()) == GenerateAccountStep(old(account.State()), Cfg(), env)
    {
      var address := account.GenerateAccount(env.account);
      var p :- Lookup(Cfg(), "generate_account");
      var text :- LegacyPrompts.Format(p, map["address" := address]);
      r := Ask(env.ai, Plain(text));
    }

    method HandleSendToken(userInput: string, env: Env) returns (r: Result<string>)
      modifies account
      ensures (r, account.State()) == SendTokenStep(old(account.State()), Cfg(), env, userInput)
    {
      var p :- Lookup(Cfg(), "token_send");
      var formatted :- LegacyPrompts.Format(p, map["user_input" := userInput]);
      var res :- env.ai.generate(GenRequest(formatted, p.responseMimeType, p.responseSchema));
      var attempt := SendTokenAttempt(res, userInput, env);
      if attempt.Err? {
        return Ok("Error creating transaction: " + ErrorText(attempt.error));
      }
      r := attempt;
    }

    /** The try block of handle_send_token. */
    method SendTokenAttempt(res: Response, userInput: string, env: Env) returns (r: Result<string>)
      modifies account
      ensures (r, account.State()) == SendTokenTry(old(account.State()), Cfg(), env, res, userInput)
    {
      var text :- env.ai.text(res);
      var json :- env.loads(text);
      var followUp :- NeedsFollowUp(json);
      if followUp {
        var p :- Lookup(Cfg(), "follow_up_token_send");
        var formatted :- LegacyPrompts.Format(p, map[]);
        return Ask(env.ai, Plain(formatted));
      }
      var tx :- account.CreateSendFlrTx(Get(json, "to_address").value, Get(json, "amount").value, env.node);
      account.AddTxToQueue(userInput, tx);
      r := Ok(Preview(env.fromWei, tx));
    }

    method HandleRemoteAttestation(env: Env) returns (r: string)
      modifies this
      ensures (r, State()) == RemoteAttestationStep(old(State()), Cfg(), env)
    {
      var p := Lookup(Cfg(), "request_attestation");
      if p.Err? {
        return "Error confirming tx: " + ErrorText(p.error);
      }
      var res := Ask(env.ai, Plain(p.value.template));
      if res.Err? {
        return "Error confirming tx: " + ErrorText(res.error);
      }
      raQueue := raQueue + [res.value];
      r := res.value;
    }

    /** handle_confirmed_tx; the message is passed on to the account, which ignores it here. */
    method HandleConfirmedTx(msg: string, env: Env) returns (r: string)
      modifies account
      ensures (r, account.State()) == ConfirmedTxStep(old(account.State()), Cfg(), env)
    {
      var hash := account.SendTxInQueue(env.node);
      var res: Result<string>;
      if hash.Err? {
        res := Err(hash.error);
      } else {
        res := AskPlain(Cfg(), env, "tx_confirmation", map["tx_hash" := hash.value]);
      }
      if res.Err? {
        return "Error confirming tx: " + ErrorText(res.error);
      }
      r := res.value;
    }
  }

  /** Only "/reset" is a command: it resets the account and answers with the store's own message; RA_QUEUE stays. */
  lemma OnlyResetIntercepted(s: AppState, cfg: AppConfig, env: Env)
    ensures ChatStep(s, "/reset", cfg, env) == (Answer("Reset account history"), AppState(Empty, s.raQueue))
  {
  }

  /**
   * With a transaction pending, every other message, slash or not, is taken as
   * its confirmation, ahead of RA_QUEUE and of routing.
   */
  lemma PendingTxTakesEveryMessage(s: AppState, message: string, cfg: AppConfig, env: Env)
    requires message != "/reset" && s.wallet.txQueue != []
    ensures var (text, w) := ConfirmedTxStep(s.wallet, cfg, env);
      ChatStep(s, message, cfg, env) == (Answer(text), AppState(w, s.raQueue))
  {
  }

  /**
   * The confirmation pops the last transaction once it is sent, even if the
   * announcement then fails; sending failures leave the queue as it was.
   */
  lemma ConfirmedTxPops(w: Wallet, cfg: AppConfig, env: Env)
    requires w.txQueue != []
    ensures var (sent, popped) := SendQueued(w, env.node);
      ConfirmedTxStep(w, cfg, env).1 == popped
      && (sent.Ok? ==> popped.txQueue == w.txQueue[..|w.txQueue| - 1])
      && (sent.Err? ==> popped == w && ConfirmedTxStep(w, cfg, env).0 == "Error confirming tx: " + ErrorText(sent.error))
  {
  }

  /** With nothing pending but RA_QUEUE, the message is the single nonce; RA_QUEUE is cleared only when a token came back. */
  lemma RaQueueTakesNonce(s: AppState, message: string, cfg: AppConfig, env: Env)
    requires message != "/reset" && s.wallet.txQueue == [] && s.raQueue != []
    ensures var t := SyncToken(cfg.simulate, cfg.simToken, [message], DEFAULT_AUDIENCE, DEFAULT_TOKEN_TYPE, env.service);
      && (t.Ok? ==> ChatStep(s, message, cfg, env) == (Answer(t.value), s.(raQueue := [])))
      && (t.Err? ==> ChatStep(s, message, cfg, env) == (Uncaught(t.error), s))
  {
  }

  /** An empty nonce is refused, so RA_QUEUE stays pending and the next message is again a nonce. */
  lemma EmptyNonceKeepsRequest(s: AppState, cfg: AppConfig, env: Env)
    requires s.wallet.txQueue == [] && s.raQueue != []
    ensures ChatStep(s, "", cfg, env) == (Uncaught(AttestationError(NonceMessage(""))), s)
  {
    assert !ValidNonce("");
    SyncValidatesFirst(cfg.simulate, cfg.simToken, [""], DEFAULT_AUDIENCE, DEFAULT_TOKEN_TYPE, env.service, 0);
  }

  /** A model answer that is a route's value wrapped in double quotes selects that route. */
  lemma RoutingStripsQuotes(cfg: AppConfig, env: Env, message: string, route: SemanticRouterResponse)
    requires AskWith(cfg, env, "semantic_router", map["user_input" := message]) == Ok("\"" + route.Value() + "\"")
    ensures SemanticRouting(cfg, env, message) == route
  {
    StripsToValue(route);
    FromValueOfValue(route);
  }

  /** Stripping the double quotes around a route's value gives the value. */
  lemma StripsToValue(route: SemanticRouterResponse)
    ensures Strip("\"" + route.Value() + "\"", '"') == route.Value()
  {
    var v := route.Value();
    ValueUnquoted(route);
    StripQuoted(v, '"');
    assert "\"" + v + "\"" == ['"'] + v + ['"'];
  }

  /** No route's value starts or ends with a double quote. */
  lemma ValueUnquoted(route: SemanticRouterResponse)
    ensures var v := route.Value(); v != [] && v[0] != '"' && v[|v| - 1] != '"'
  {
  }

  /** Routing fails open: whatever goes wrong, the route is Conversational. */
  lemma RoutingFailsOpen(cfg: AppConfig, env: Env, message: string)
    ensures AskWith(cfg, env, "semantic_router", map["user_input" := message]).Err? ==>
      SemanticRouting(cfg, env, message) == Conversational
    ensures (exists text :: AskWith(cfg, env, "semantic_router", map["user_input" := message]) == Ok(text)
              && MapToEnum(Strip(text, '"')).Err?)
            ==> SemanticRouting(cfg, env, message) == Conversational
  {
  }

  /** An existing account is reported, not replaced. */
  lemma AccountAlreadyExists(s: AppState, cfg: AppConfig, env: Env, message: string)
    requires Truthy(s.wallet.address)
    ensures RouteStep(GenerateAccount, s, cfg, env, message) == (Ok("Account already exists - " + s.wallet.address.value), s)
  {
  }

  /**
   * Asking for an attestation queues the model's request text and replies with
   * it; any exception, from the lookup, generate or the text, is reported and
   * queues nothing.
   */
  lemma RemoteAttestationQueues(s: AppState, cfg: AppConfig, env: Env)
    ensures var res := (var p :- Lookup(cfg, "request_attestation"); Ask(env.ai, Plain(p.template)));
      var (text, s') := RemoteAttestationStep(s, cfg, env);
      && (res.Ok? ==> text == res.value && s' == s.(raQueue := s.raQueue + [res.value]))
      && (res.Err? ==> text == "Error confirming tx: " + ErrorText(res.error) && s' == s)
  {
  }

  /** With the prompt present, the queued text is exactly what the model's response reads as. */
  lemma RemoteAttestationQueuesAnswer(s: AppState, cfg: AppConfig, env: Env, t: string)
    requires "request_attestation" in cfg.prompts
    requires Ask(env.ai, Plain(cfg.prompts["request_attestation"].template)) == Ok(t)
    ensures RemoteAttestationStep(s, cfg, env) == (t, s.(raQueue := s.raQueue + [t]))
    ensures RemoteAttestationStep(s, cfg, env).1.raQueue[|s.raQueue|] == t
  {
  }

  /**
   * A reading that needs a follow-up queues nothing, and the follow-up prompt
   * has no inputs, so the reply is always the formatting error.
   */
  lemma FollowUpIsFormattingError(w: Wallet, cfg: AppConfig, env: Env, res: Response, text: string, userInput: string, j: Json)
    requires "follow_up_token_send" in cfg.prompts && NoInputs(cfg.prompts["follow_up_token_send"])
    requires GenerateWith(cfg, env, "token_send", map["user_input" := userInput]) == Ok(res)
    requires env.ai.text(res) == Ok(text)
    requires env.loads(text) == Ok(j) && NeedsFollowUp(j) == Ok(true)
    ensures SendTokenStep(w, cfg, env, userInput) == (Ok("Error creating transaction: Nothing to format"), w)
  {
    FollowUpTryFails(w, cfg, env, res, text, userInput, j);
    assert ErrorText(ValueError("Nothing to format")) == "Nothing to format";
    assert "Error creating transaction: " + "Nothing to format" == "Error creating transaction: Nothing to format";
  }

  /** Inside the try block, a follow-up reading raises the formatting error and queues nothing. */
  lemma FollowUpTryFails(w: Wallet, cfg: AppConfig, env: Env, res: Response, text: string, userInput: string, j: Json)
    requires "follow_up_token_send" in cfg.prompts && NoInputs(cfg.prompts["follow_up_token_send"])
    requires env.ai.text(res) == Ok(text)
    requires env.loads(text) == Ok(j) && NeedsFollowUp(j) == Ok(true)
    ensures SendTokenTry(w, cfg, env, res, userInput) == (Err(ValueError("Nothing to format")), w)
  {
    var p := cfg.prompts["follow_up_token_send"];
    assert LegacyPrompts.Format(p, map[]) == Err(ValueError("Nothing to format"));
  }

  /**
   * Every exception raised inside the try block, after generate returned,
   * becomes the reply "Error creating transaction: ...", and nothing is queued.
   */
  lemma SendTokenErrorsCaught(w: Wallet, cfg: AppConfig, env: Env, res: Response, userInput: string)
    requires GenerateWith(cfg, env, "token_send", map["user_input" := userInput]) == Ok(res)
    requires SendTokenTry(w, cfg, env, res, userInput).0.Err?
    ensures SendTokenTry(w, cfg, env, res, userInput).1 == w
    ensures SendTokenStep(w, cfg, env, userInput)
         == (Ok("Error creating transaction: " + ErrorText(SendTokenTry(w, cfg, env, res, userInput).0.error)), w)
  {
  }

  /** Reading the response's text happens inside the try block, so its exception is reported too. */
  lemma SendTokenTextCaught(w: Wallet, cfg: AppConfig, env: Env, res: Response, e: Error, userInput: string)
    requires GenerateWith(cfg, env, "token_send", map["user_input" := userInput]) == Ok(res)
    requires env.ai.text(res) == Err(e)
    ensures SendTokenStep(w, cfg, env, userInput) == (Ok("Error creating transaction: " + ErrorText(e)), w)
  {
  }

  /** The prompt and the generate call, before the try block, raise out of the handler. */
  lemma SendTokenPromptRaises(w: Wallet, cfg: AppConfig, env: Env, userInput: string)
    requires GenerateWith(cfg, env, "token_send", map["user_input" := userInput]).Err?
    ensures SendTokenStep(w, cfg, env, userInput)
         == (Err(GenerateWith(cfg, env, "token_send", map["user_input" := userInput]).error), w)
  {
  }

  /** A reading of two keys with a non-zero amount, from which a transaction is built, queues exactly that transaction. */
  lemma SendTokenAppendsOne(w: Wallet, cfg: AppConfig, env: Env, res: Response, text: string, userInput: string, j: Json, tx: TxParams)
    requires GenerateWith(cfg, env, "token_send", map["user_input" := userInput]) == Ok(res)
    requires env.ai.text(res) == Ok(text)
    requires env.loads(text) == Ok(j)
    requires NeedsFollowUp(j) == Ok(false)
    requires SendFlrTx(w, Get(j, "to_address").value, Get(j, "amount").value, env.node) == Ok(tx)
    ensures SendTokenStep(w, cfg, env, userInput) == (Ok(Preview(env.fromWei, tx)), Enqueue(w, userInput, tx))
    ensures SendTokenStep(w, cfg, env, userInput).1.txQueue == w.txQueue + [TxQueueElement(userInput, tx)]
  {
  }

  /**
   * Without an address a send first makes an account; a failure there raises,
   * and otherwise the send runs on the new account and its announcement is dropped.
   */
  lemma SendMakesAccountFirst(s: AppState, cfg: AppConfig, env: Env, message: string)
    requires !Truthy(s.wallet.address)
    ensures var (made, w) := GenerateAccountStep(s.wallet, cfg, env);
      && Truthy(w.address)
      && (made.Err? ==> RouteStep(SendToken, s, cfg, env, message) == (Err(made.error), s.(wallet := w)))
      && (made.Ok? ==> RouteStep(SendToken, s, cfg, env, message)
                       == (SendTokenStep(w, cfg, env, message).0, s.(wallet := SendTokenStep(w, cfg, env, message).1)))
  {
    GenerateAccountSets(s.wallet, env.account);
  }

  /** Sending a token keeps the queue or appends exactly one transaction for this message. */
  lemma SendTokenQueue(w: Wallet, cfg: AppConfig, env: Env, userInput: string)
    ensures var w' := SendTokenStep(w, cfg, env, userInput).1;
      w' == w || exists tx :: w' == Enqueue(w, userInput, tx)
  {
  }
}
