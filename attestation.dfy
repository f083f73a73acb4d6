/**
 * The vTPM clients of the attestation package: a synchronous HTTP connection
 * over the Unix socket (like the attestation service's, without the
 * attestation-requested flag), and an asynchronous client whose posts need a
 * session opened by connect.
 */
module Attestation {
  import opened Wrappers
  import opened Text
  import opened VtpmProtocol

  class VtpmAttestation {
    const simulate: bool
    /** SIM_TOKEN: the first line of simulated_token.txt, read once when the module loads. */
    const simToken: string

    constructor(simulate: bool, simToken: string)
      ensures this.simulate == simulate && this.simToken == simToken
    {
      this.simulate := simulate;
      this.simToken := simToken;
    }

    /** connect: does nothing in simulate mode; otherwise the socket's own outcome. */
    method Connect(socket: Outcome) returns (r: Outcome)
      ensures simulate ==> r == Pass
      ensures !simulate ==> r == socket
    {
      if simulate {
        return Pass;
      }
      r := socket;
    }

    /** _post: the answer's body, or an exception when the status is not 200. */
    method Post(answer: SocketAnswer) returns (r: Result<string>)
      ensures r == PostSync(answer)
    {
      match answer
      case SocketFailed(e) =>
        r := Err(e);
      case Answered(status, reason, body) =>
        if status != 200 {
          r := Err(AttestationError("Failed to get attestation response: " + NatToString(status) + " " + reason));
        } else {
          r := Ok(body);
        }
    }

    /** get_token: the nonces are checked before anything else happens. */
    method GetToken(nonces: seq<string>, audience: string, tokenType: string, service: Service)
      returns (r: Result<string>)
      ensures r == SyncToken(simulate, simToken, nonces, audience, tokenType, service)
    {
      var check := CheckNonceLength(nonces);
      if check.Fail? {
        return Err(check.error);
      }
      if simulate {
        return Ok(simToken);
      }
      r := Post(service(TokenRequest(TOKEN_ENDPOINT, audience, tokenType, nonces)));
    }
  }

  class AsyncVtpmAttestation {
    const host: string
    /** Whether a client session is open (`_session` is not None). */
    var session: bool

    constructor(host: string)
      ensures this.host == host && !session
    {
      this.host := host;
      session := false;
    }

    /**
     * connect: opens a session over the socket; a failure to create it raises
     * and leaves the previous session as it was.
     */
    method Connect(connector: Outcome) returns (r: Outcome)
      modifies this
      ensures connector.Pass? ==> r == Pass && session
      ensures connector.Fail? ==> r == Fail(AttestationError("Failed to connect to socket")) && session == old(session)
    {
      if connector.Fail? {
        return Fail(AttestationError("Failed to connect to socket"));
      }
      session := true;
      r := Pass;
    }

    /** close: afterwards there is no session. */
    method Close()
      modifies this
      ensures !session
    {
      if session {
        session := false;
      }
    }

    /** _post: refuses without a session; any failure of the exchange becomes "Request failed". */
    method Post(answer: SocketAnswer) returns (r: Result<string>)
      ensures r == PostAsync(session, answer)
    {
      if !session {
        return Err(AttestationError("Client not connected. Call connect() first."));
      }
      if answer.SocketFailed? {
        return Err(AttestationError("Request failed"));
      }
      r := Ok(answer.body);
    }

    /** get_token: the nonce check, then the post, with no simulate mode. */
    method GetToken(nonces: seq<string>, audience: string, tokenType: string, service: Service)
      returns (r: Result<string>)
      ensures r == AsyncToken(session, nonces, audience, tokenType, service)
    {
      var check := CheckNonceLength(nonces);
      if check.Fail? {
        return Err(check.error);
      }
      r := Post(service(TokenRequest(TOKEN_ENDPOINT, audience, tokenType, nonces)));
    }
  }
}
