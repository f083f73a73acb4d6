/**
 * The synchronous vTPM client of the attestation service package: an HTTP
 * connection over the attestation service's Unix socket, with a simulate mode
 * that answers every valid request with a fixed token.
 */
module AttestationService {
  import opened Wrappers
  import opened Text
  import opened VtpmProtocol

  class Vtpm {
    /** In simulate mode nothing is connected or posted. */
    const simulate: bool
    /** SIM_TOKEN: the first line of simulated_token.txt, read once when the module loads. */
    const simToken: string
    /** Whether the chat router has asked the user for a nonce to attest. */
    var attestationRequested: bool

    constructor(simulate: bool, simToken: string)
      ensures this.simulate == simulate && this.simToken == simToken
      ensures !attestationRequested
    {
      this.simulate := simulate;
      this.simToken := simToken;
      attestationRequested := false;
    }

    /** connect: does nothing in simulate mode; otherwise the socket's own outcome. */
    method Connect(socket: Outcome) returns (r: Outcome)
      ensures simulate ==> r == Pass
      ensures !simulate ==> r == socket
    {
      if simulate {
        return Pass;
      }
      r := socket;
    }

    /** _post: the answer's body, or an exception when the status is not 200. */
    method Post(answer: SocketAnswer) returns (r: Result<string>)
      ensures r == PostSync(answer)
    {
      match answer
      case SocketFailed(e) =>
        r := Err(e);
      case Answered(status, reason, body) =>
        if status != 200 {
          r := Err(AttestationError("Failed to get attestation response: " + NatToString(status) + " " + reason));
        } else {
          r := Ok(body);
        }
    }

    /** get_token: the nonces are checked before anything else happens. */
    method GetToken(nonces: seq<string>, audience: string, tokenType: string, service: Service)
      returns (r: Result<string>)
      ensures r == SyncToken(simulate, simToken, nonces, audience, tokenType, service)
    {
      var check := CheckNonceLength(nonces);
      if check.Fail? {
        return Err(check.error);
      }
      if simulate {
        return Ok(simToken);
      }
      r := Post(service(TokenRequest(TOKEN_ENDPOINT, audience, tokenType, nonces)));
    }
  }
}
