/**
 * ChatRouter of src/flare_ai_core/api/chat.py: the per-session message router.
 * A message is, in this order, a slash command, an exact echo confirming the
 * last queued transaction, a nonce answering a pending attestation request, or
 * something to classify by intent and dispatch to a handler.
 *
 * Each step is first stated on values (a Session and the router's
 * configuration, with the collaborators as oracles in an Env), then the class's
 * methods are proved to perform exactly that step on its objects.
 */
module Chat {
  import opened Wrappers
  import opened Text
  import opened JsonValues
  import opened Schemas
  import opened Ai
  import opened VtpmProtocol
  import opened Blockchain
  import Service
  import Library
  import AttestationService
  import opened Collaborators

  /** The HTTP answer of the chat endpoint: a response body, or an HTTPException with status 500. */
  datatype ChatResponse = Ok200(response: string) | Http500(detail: string)

  /** The mutable state one message can change: the store's fields and the attestation flag. */
  datatype Session = Session(wallet: Wallet, attestationRequested: bool)

  /**
   * What the router reads but never changes: the prompt library's entries, the
   * explorer URL of the settings, and the attestation client's simulate mode and token.
   */
  datatype Config = Config(prompts: map<string, Prompt>, explorerUrl: string, simulate: bool, simToken: string)

  /** The endpoint's answer for a handler's reply: any exception becomes a 500 carrying str(e). */
  function Respond(reply: Result<string>): ChatResponse {
    match reply
    case Ok(text) => Ok200(text)
    case Err(e) => Http500(ErrorText(e))
  }

  /** get_formatted_prompt followed by generate with the prompt's MIME type and schema. */
  function AskWith(cfg: Config, env: Env, name: string, kwargs: map<string, string>): Result<string> {
    var f :- Service.FormattedPrompt(cfg.prompts, name, kwargs);
    Ask(env.ai, GenRequest(f.0, f.1, f.2))
  }

  /** get_formatted_prompt followed by a plain generate of the text alone. */
  function AskPlain(cfg: Config, env: Env, name: string): Result<string> {
    var f :- Service.FormattedPrompt(cfg.prompts, name, map[]);
    Ask(env.ai, Plain(f.0))
  }

  /** handle_command: /reset resets the store; the attestation flag is left alone. */
  function CommandStep(s: Session, command: string): (string, Session) {
    if command == "/reset" then ("Reset completed", s.(wallet := Empty))
    else ("Unknown command", s)
  }

  /** The classification get_semantic_route asks for, with every way it can fail. */
  function Classify(cfg: Config, env: Env, message: string): Result<SemanticRouterResponse> {
    var text :- AskWith(cfg, env, "semantic_router", map["user_input" := message]);
    match FromValue(text)
    case None => Err(ValueError("'" + text + "' is not a valid SemanticRouterResponse"))
    case Some(route) => Ok(route)
  }

  /** get_semantic_route: fails open to Conversational. */
  function SemanticRoute(cfg: Config, env: Env, message: string): SemanticRouterResponse {
    match Classify(cfg, env, message)
    case Ok(route) => route
    case Err(_) => Conversational
  }

  /** handle_generate_account: an existing address is reported, otherwise a new account is made and announced. */
  function GenerateAccountStep(s: Session, cfg: Config, env: Env): (Result<string>, Session) {
    if Truthy(s.wallet.address) then (Ok("Account exists - " + s.wallet.address.value), s)
    else
      var (address, w) := Generated(s.wallet, env.account);
      (AskWith(cfg, env, "generate_account", map["address" := address]), s.(wallet := w))
  }

  /** The transaction preview handle_send_token returns. */
  function Preview(fromWei: nat -> string, tx: TxParams): string {
    "Transaction Preview: " + ("Sending " + (fromWei(tx.value) + (" FLR to " + (tx.to + "\nType CONFIRM to proceed."))))
  }

  /** The model's reading of a send request, as decoded JSON. */
  function SendTokenJson(cfg: Config, env: Env, message: string): Result<Json> {
    var text :- AskWith(cfg, env, "token_send", map["user_input" := message]);
    env.loads(text)
  }

  /** handle_send_token once an account exists: a follow-up question, or one queued transaction and its preview. */
  function SendTokenBody(s: Session, cfg: Config, env: Env, message: string): (Result<string>, Session) {
    match SendTokenJson(cfg, env, message)
    case Err(e) => (Err(e), s)
    case Ok(j) =>
      match NeedsFollowUp(j)
      case Err(e) => (Err(e), s)
      case Ok(true) => (AskPlain(cfg, env, "follow_up_token_send"), s)
      case Ok(false) =>
        match SendFlrTx(s.wallet, Get(j, "to_address").value, Get(j, "amount").value, env.node)
        case Err(e) => (Err(e), s)
        case Ok(tx) => (Ok(Preview(env.fromWei, tx)), s.(wallet := Enqueue(s.wallet, message, tx)))
  }

  /** handle_send_token: an account is made first when none exists, and its failure propagates. */
  function SendTokenStep(s: Session, cfg: Config, env: Env, message: string): (Result<string>, Session) {
    if Truthy(s.wallet.address) then SendTokenBody(s, cfg, env, message)
    else
      var (made, s1) := GenerateAccountStep(s, cfg, env);
      if made.Err? then (Err(made.error), s1) else SendTokenBody(s1, cfg, env, message)
  }

  /** handle_swap_token */
  function SwapReply(): Result<string> {
    Ok("Sorry I can't do that right now")
  }

  /**
   * handle_attestation: asks the user for a nonce, and from then on expects one.
   * The flag is set once generate has returned, before the response's text is read.
   */
  function AttestationStep(s: Session, cfg: Config, env: Env): (Result<string>, Session) {
    match Service.FormattedPrompt(cfg.prompts, "request_attestation", map[])
    case Err(e) => (Err(e), s)
    case Ok(f) =>
      match env.ai.generate(Plain(f.0))
      case Err(e) => (Err(e), s)
      case Ok(res) => (env.ai.text(res), s.(attestationRequested := true))
  }

  /** route_message: every route has a handler, so "Unsupported route" cannot be answered. */
  function RouteStep(route: SemanticRouterResponse, s: Session, cfg: Config, env: Env, message: string): (Result<string>, Session) {
    match route
    case GenerateAccount => GenerateAccountStep(s, cfg, env)
    case SendToken => SendTokenStep(s, cfg, env, message)
    case SwapToken => (SwapReply(), s)
    case RequestAttestation => AttestationStep(s, cfg, env)
    case Conversational => (Ask(env.ai, Plain(message)), s)
  }

  /** Whether the message is the byte-exact echo of the last queued transaction's message. */
  predicate Confirms(s: Session, message: string) {
    s.wallet.txQueue != [] && message == s.wallet.txQueue[|s.wallet.txQueue| - 1].msg
  }

  /** The confirmation branch: send and pop the last transaction, then announce its hash. */
  function ConfirmStep(s: Session, cfg: Config, env: Env): (Result<string>, Session) {
    var (sent, w) := SendQueued(s.wallet, env.node);
    match sent
    case Err(e) => (Err(e), s.(wallet := w))
    case Ok(hash) =>
      (AskWith(cfg, env, "tx_confirmation", map["tx_hash" := hash, "block_explorer" := cfg.explorerUrl]), s.(wallet := w))
  }

  /** The reply and new state of the chat endpoint for one message. */
  function ChatStep(s: Session, message: string, cfg: Config, env: Env): (ChatResponse, Session) {
    var (reply, s') :=
      if StartsWith(message, "/") then
        var (text, s1) := CommandStep(s, message);
        (Ok(text), s1)
      else if Confirms(s, message) then ConfirmStep(s, cfg, env)
      else if s.attestationRequested then
        (SyncToken(cfg.simulate, cfg.simToken, [message], DEFAULT_AUDIENCE, DEFAULT_TOKEN_TYPE, env.service), s)
      else RouteStep(SemanticRoute(cfg, env, message), s, cfg, env, message);
    (Respond(reply), s')
  }

  class ChatRouter {
    const blockchain: Flare
    const attestation: AttestationService.Vtpm
    const prompts: Service.PromptService
    /** settings.web3_explorer_url */
    const explorerUrl: string

    constructor (blockchain: Flare, attestation: AttestationService.Vtpm, prompts: Service.PromptService, explorerUrl: string)
      ensures this.blockchain == blockchain && this.attestation == attestation
      ensures this.prompts == prompts && this.explorerUrl == explorerUrl
    {
      this.blockchain := blockchain;
      this.attestation := attestation;
      this.prompts := prompts;
      this.explorerUrl := explorerUrl;
    }

    function State(): Session
      reads blockchain, attestation
    {
      Session(blockchain.State(), attestation.attestationRequested)
    }

    function Cfg(): Config
      reads prompts.library
    {
      Config(prompts.library.prompts, explorerUrl, attestation.simulate, attestation.simToken)
    }

    /** The chat endpoint. The request model demands a message of at least one character. */
    method Chat(message: string, env: Env) returns (r: ChatResponse)
      requires |message| >= 1
      modifies blockchain, attestation
      ensures (r, State()) == ChatStep(old(State()), message, Cfg(), env)
    {
      var reply: Result<string>;
      if StartsWith(message, "/") {
        var text := HandleCommand(message);
        reply := Ok(text);
      } else if blockchain.txQueue != [] && message == blockchain.txQueue[|blockchain.txQueue| - 1].msg {
        var sent := blockchain.SendTxInQueue(env.node);
        if sent.Err? {
          reply := Err(sent.error);
        } else {
          var kwargs := map["tx_hash" := sent.value, "block_explorer" := explorerUrl];
          var f := prompts.GetFormattedPrompt("tx_confirmation", kwargs);
          if f.Err? {
            reply := Err(f.error);
          } else {
            reply := Ask(env.ai, GenRequest(f.value.0, f.value.1, f.value.2));
          }
        }
      } else if attestation.attestationRequested {
        reply := attestation.GetToken([message], DEFAULT_AUDIENCE, DEFAULT_TOKEN_TYPE, env.service);
      } else {
        var route := SemanticRoute(Cfg(), env, message);
        reply := RouteMessage(route, message, env);
      }
      r := Respond(reply);
    }

    method HandleCommand(command: string) returns (r: string)
      modifies blockchain
      ensures (r, State()) == CommandStep(old(State()), command)
    {
      if command == "/reset" {
        var _ := blockchain.Reset();
        return "Reset completed";
      }
      r := "Unknown command";
    }

    method RouteMessage(route: SemanticRouterResponse, message: string, env: Env) returns (r: Result<string>)
      modifies blockchain, attestation
      ensures (r, State()) == RouteStep(route, old(State()), Cfg(), env, message)
    {
      match route
      case GenerateAccount =>
        r := HandleGenerateAccount(env);
      case SendToken =>
        r := HandleSendToken(message, env);
      case SwapToken =>
        r := SwapReply();
      case RequestAttestation =>
        r := HandleAttestation(env);
      case Conversational =>
        r := Ask(env.ai, Plain(message));
    }

    method HandleGenerateAccount(env: Env) returns (r: Result<string>)
      modifies blockchain
      ensures (r, State()) == GenerateAccountStep(old(State()), Cfg(), env)
    {
      if blockchain.address.Some? && blockchain.address.value != [] {
        return Ok("Account exists - " + blockchain.address.value);
      }
      var address := blockchain.GenerateAccount(env.account);
      var f :- prompts.GetFormattedPrompt("generate_account", map["address" := address]);
      r := Ask(env.ai, GenRequest(f.0, f.1, f.2));
    }

    method HandleSendToken(message: string, env: Env) returns (r: Result<string>)
      modifies blockchain
      ensures (r, State()) == SendTokenStep(old(State()), Cfg(), env, message)
    {
      if blockchain.address.None? || blockchain.address.value == [] {
        var made := HandleGenerateAccount(env);
        if made.Err? {
          return Err(made.error);
        }
      }
      var f :- prompts.GetFormattedPrompt("token_send", map["user_input" := message]);
      var res :- env.ai.generate(GenRequest(f.0, f.1, f.2));
      var text :- env.ai.text(res);
      var json :- env.loads(text);
      var followUp :- NeedsFollowUp(json);
      if followUp {
        var g :- prompts.GetFormattedPrompt("follow_up_token_send", map[]);
        return Ask(env.ai, Plain(g.0));
      }
      var tx :- blockchain.CreateSendFlrTx(Get(json, "to_address").value, Get(json, "amount").value, env.node);
      blockchain.AddTxToQueue(message, tx);
      r := Ok(Preview(env.fromWei, tx));
    }

    method HandleAttestation(env: Env) returns (r: Result<string>)
      modifies attestation
      ensures (r, State()) == AttestationStep(old(State()), Cfg(), env)
    {
      var f :- prompts.GetFormattedPrompt("request_attestation", map[]);
      var res :- env.ai.generate(Plain(f.0));
      attestation.attestationRequested := true;
      r := env.ai.text(res);
    }
  }

  /** A message starting with "/" is a command and nothing else: no confirmation, nonce or classification. */
  lemma CommandsOnly(s: Session, message: string, cfg: Config, env: Env)
    requires StartsWith(message, "/")
    ensures message == "/reset" ==> ChatStep(s, message, cfg, env) == (Ok200("Reset completed"), Session(Empty, s.attestationRequested))
    ensures message != "/reset" ==> ChatStep(s, message, cfg, env) == (Ok200("Unknown command"), s)
  {
  }

  /**
   * The echo of the last queued message confirms it, even with an attestation
   * pending: the last transaction is sent and popped and its hash announced.
   */
  lemma EchoConfirms(s: Session, message: string, cfg: Config, env: Env)
    requires !StartsWith(message, "/") && Confirms(s, message)
    ensures var (r, w) := SendQueued(s.wallet, env.node);
      && ChatStep(s, message, cfg, env).1 == s.(wallet := w)
      && (r.Err? ==> ChatStep(s, message, cfg, env).0 == Http500(ErrorText(r.error)))
      && (r.Ok? ==> ChatStep(s, message, cfg, env).0
                    == Respond(AskWith(cfg, env, "tx_confirmation", map["tx_hash" := r.value, "block_explorer" := cfg.explorerUrl])))
  {
  }

  /** Only a confirmation removes queued transactions: on any other non-command message the old queue is a prefix of the new one. */
  lemma OnlyEchoPops(s: Session, message: string, cfg: Config, env: Env)
    requires !StartsWith(message, "/") && !Confirms(s, message)
    ensures var q := ChatStep(s, message, cfg, env).1.wallet.txQueue;
      |s.wallet.txQueue| <= |q| <= |s.wallet.txQueue| + 1 && q[..|s.wallet.txQueue|] == s.wallet.txQueue
  {
    if !s.attestationRequested {
      var route := SemanticRoute(cfg, env, message);
      if route == SendToken {
        SendTokenQueue(s, cfg, env, message);
      }
    }
  }

  /** With an attestation pending and no command or echo, the whole message is the single nonce, and nothing changes. */
  lemma PendingAttestationTakesNonce(s: Session, message: string, cfg: Config, env: Env)
    requires !StartsWith(message, "/") && !Confirms(s, message) && s.attestationRequested
    ensures ChatStep(s, message, cfg, env)
         == (Respond(SyncToken(cfg.simulate, cfg.simToken, [message], DEFAULT_AUDIENCE, DEFAULT_TOKEN_TYPE, env.service)), s)
  {
  }

  /** The attestation flag, once set, is never cleared: not by /reset, not by a token, not by any handler. */
  lemma FlagNeverCleared(s: Session, message: string, cfg: Config, env: Env)
    requires s.attestationRequested
    ensures ChatStep(s, message, cfg, env).1.attestationRequested
  {
  }

  /** A nonce that is too short is refused with a 500, and the flag stays set for the next message. */
  lemma ShortNonceRefused(s: Session, message: string, cfg: Config, env: Env)
    requires !StartsWith(message, "/") && !Confirms(s, message) && s.attestationRequested
    requires !ValidNonce(message)
    ensures ChatStep(s, message, cfg, env) == (Http500(ErrorText(AttestationError(NonceMessage(message)))), s)
  {
    SyncValidatesFirst(cfg.simulate, cfg.simToken, [message], DEFAULT_AUDIENCE, DEFAULT_TOKEN_TYPE, env.service, 0);
  }

  /** Classification fails open: a missing prompt, a failing model, or text naming no route all give Conversational. */
  lemma ClassificationFailsOpen(cfg: Config, env: Env, message: string)
    ensures AskWith(cfg, env, "semantic_router", map["user_input" := message]).Err? ==>
      SemanticRoute(cfg, env, message) == Conversational
    ensures (exists text :: AskWith(cfg, env, "semantic_router", map["user_input" := message]) == Ok(text)
              && FromValue(text).None?)
            ==> SemanticRoute(cfg, env, message) == Conversational
    ensures SemanticRoute(cfg, env, message) != Conversational ==>
      AskWith(cfg, env, "semantic_router", map["user_input" := message])
        == Ok(SemanticRoute(cfg, env, message).Value())
  {
  }

  /** A model answer that is exactly a route's value selects that route. */
  lemma ClassificationExact(cfg: Config, env: Env, message: string, route: SemanticRouterResponse)
    requires AskWith(cfg, env, "semantic_router", map["user_input" := message]) == Ok(route.Value())
    ensures SemanticRoute(cfg, env, message) == route
  {
    FromValueOfValue(route);
  }

  /** With an address present no new account is made and the existing one is reported. */
  lemma GenerateAccountIdempotent(s: Session, cfg: Config, env: Env)
    requires Truthy(s.wallet.address)
    ensures GenerateAccountStep(s, cfg, env) == (Ok("Account exists - " + s.wallet.address.value), s)
  {
  }

  /** Without one, exactly the new account is installed, whatever the announcement's fate. */
  lemma GenerateAccountInstalls(s: Session, cfg: Config, env: Env)
    requires !Truthy(s.wallet.address)
    ensures GenerateAccountStep(s, cfg, env).1 == s.(wallet := Generated(s.wallet, env.account).1)
    ensures Truthy(GenerateAccountStep(s, cfg, env).1.wallet.address)
  {
    GenerateAccountSets(s.wallet, env.account);
  }

  /** Sending a token keeps the queue or appends exactly one transaction, for this message, on success only. */
  lemma SendTokenQueue(s: Session, cfg: Config, env: Env, message: string)
    ensures var (r, s') := SendTokenStep(s, cfg, env, message);
      var n := |s.wallet.txQueue|;
      && n <= |s'.wallet.txQueue| <= n + 1
      && s'.wallet.txQueue[..n] == s.wallet.txQueue
      && (|s'.wallet.txQueue| == n + 1 ==> r.Ok? && s'.wallet.txQueue[n].msg == message)
      && s'.attestationRequested == s.attestationRequested
  {
    var s1 := if Truthy(s.wallet.address) then s else GenerateAccountStep(s, cfg, env).1;
    assert s1.wallet.txQueue == s.wallet.txQueue;
    var n := |s.wallet.txQueue|;
    var q := SendTokenBody(s1, cfg, env, message).1.wallet.txQueue;
    if |q| != n {
      var tx :| q == s.wallet.txQueue + [TxQueueElement(message, tx)];
      assert q[..n] == s.wallet.txQueue;
    }
  }

  /**
   * Without an address, send-token first makes an account: its failure is the
   * reply, and otherwise the send runs on the new account, which stays installed.
   */
  lemma SendTokenAccountFirst(s: Session, cfg: Config, env: Env, message: string)
    requires !Truthy(s.wallet.address)
    ensures var (made, s1) := GenerateAccountStep(s, cfg, env);
      && (made.Err? ==> SendTokenStep(s, cfg, env, message) == (Err(made.error), s1))
      && (made.Ok? ==> SendTokenStep(s, cfg, env, message) == SendTokenBody(s1, cfg, env, message))
      && Truthy(SendTokenStep(s, cfg, env, message).1.wallet.address)
  {
    GenerateAccountInstalls(s, cfg, env);
    var s1 := GenerateAccountStep(s, cfg, env).1;
    BodyKeepsAccount(s1, cfg, env, message);
  }

  /** The body of send-token never changes the account, only the queue. */
  lemma BodyKeepsAccount(s: Session, cfg: Config, env: Env, message: string)
    ensures SendTokenBody(s, cfg, env, message).1.wallet.address == s.wallet.address
  {
  }

  /** A reading of two keys with a non-zero amount, from which a transaction is built, queues exactly that transaction for this message. */
  lemma SendTokenAppendsOne(s: Session, cfg: Config, env: Env, message: string, j: Json, tx: TxParams)
    requires Truthy(s.wallet.address)
    requires SendTokenJson(cfg, env, message) == Ok(j)
    requires NeedsFollowUp(j) == Ok(false)
    requires SendFlrTx(s.wallet, Get(j, "to_address").value, Get(j, "amount").value, env.node) == Ok(tx)
    ensures SendTokenStep(s, cfg, env, message) == (Ok(Preview(env.fromWei, tx)), s.(wallet := Enqueue(s.wallet, message, tx)))
    ensures SendTokenStep(s, cfg, env, message).1.wallet.txQueue == s.wallet.txQueue + [TxQueueElement(message, tx)]
  {
  }

  /** A model reading that does not have exactly two keys, or whose amount is zero, asks a follow-up and queues nothing. */
  lemma FollowUpQueuesNothing(s: Session, cfg: Config, env: Env, message: string, j: Json)
    requires Truthy(s.wallet.address)
    requires SendTokenJson(cfg, env, message) == Ok(j)
    requires NeedsFollowUp(j) == Ok(true)
    ensures SendTokenStep(s, cfg, env, message) == (AskPlain(cfg, env, "follow_up_token_send"), s)
  {
  }

  /** str of a lookup's KeyError: the message holds a quote, so repr puts it in double quotes. */
  lemma NotFoundText(name: string)
    requires '"' !in name
    ensures ErrorText(KeyError(Library.NotFound(name))) == "\"" + Library.NotFound(name) + "\""
  {
    var pre := "Prompt '";
    var post := "' not found in library";
    assert Library.NotFound(name) == pre + name + post;
    assert pre[7] == '\'';
    assert '"' !in pre;
    assert '"' !in post;
  }

  /** A library without the follow-up prompt makes that path end in a 500 naming the missing key. */
  lemma FollowUpMissingWithDefaults(cfg: Config, env: Env)
    requires "follow_up_token_send" !in cfg.prompts
    ensures Respond(AskPlain(cfg, env, "follow_up_token_send"))
         == Http500("\"" + Library.NotFound("follow_up_token_send") + "\"")
  {
    var e := KeyError(Library.NotFound("follow_up_token_send"));
    assert Service.FormattedPrompt(cfg.prompts, "follow_up_token_send", map[]) == Err(e);
    assert AskPlain(cfg, env, "follow_up_token_send") == Err(e);
    NotFoundText("follow_up_token_send");
  }

  /** A swap is declined with a fixed reply, and nothing changes. */
  lemma SwapDeclined(s: Session, cfg: Config, env: Env, message: string)
    ensures RouteStep(SwapToken, s, cfg, env, message) == (Ok("Sorry I can't do that right now"), s)
  {
  }

  /**
   * Asking for an attestation replies with the model's text, and sets the flag
   * exactly when the prompt was formatted and generate returned, even if reading
   * the text then raised.
   */
  lemma AttestationSetsFlag(s: Session, cfg: Config, env: Env)
    ensures var f := Service.FormattedPrompt(cfg.prompts, "request_attestation", map[]);
      var (r, s') := AttestationStep(s, cfg, env);
      && r == AskPlain(cfg, env, "request_attestation")
      && s'.wallet == s.wallet
      && (s'.attestationRequested <==> s.attestationRequested || (f.Ok? && env.ai.generate(Plain(f.value.0)).Ok?))
      && (r.Ok? ==> s'.attestationRequested)
  {
  }

  /** When the response's text cannot be read, the reply is a 500 but the flag is already set. */
  lemma AttestationFlagBeforeText(s: Session, cfg: Config, env: Env, f: Service.Formatted, res: Response, e: Error)
    requires Service.FormattedPrompt(cfg.prompts, "request_attestation", map[]) == Ok(f)
    requires env.ai.generate(Plain(f.0)) == Ok(res)
    requires env.ai.text(res) == Err(e)
    ensures AttestationStep(s, cfg, env) == (Err(e), s.(attestationRequested := true))
    ensures Respond(AttestationStep(s, cfg, env).0) == Http500(ErrorText(e))
  {
  }
}
