/**
 * What the three vTPM attestation clients share: the nonce length check, the
 * token request they post to the attestation service's Unix socket, and how an
 * answer of that service becomes a token or an exception.
 *
 * The socket is an oracle: a TokenRequest -> SocketAnswer function standing for
 * one exchange with the service.
 */
module VtpmProtocol {
  import opened Wrappers
  import opened Text

  const MIN_BYTE_LEN: nat := 10
  const MAX_BYTE_LEN: nat := 74

  /** The UTF-8 encoding of one character, by the four width classes of RFC 3629, section 3. */
  function EncodeChar(c: char): (r: seq<byte>)
    ensures 1 <= |r| <= 4
    ensures |r| == 1 <==> (c as int) < 0x80
  {
    var n := c as int;
    if n < 0x80 then [n as byte]
    else if n < 0x800 then [(0xC0 + n / 0x40) as byte, (0x80 + n % 0x40) as byte]
    else if n < 0x1_0000 then
      [(0xE0 + n / 0x1000) as byte, (0x80 + (n / 0x40) % 0x40) as byte, (0x80 + n % 0x40) as byte]
    else
      [(0xF0 + n / 0x4_0000) as byte, (0x80 + (n / 0x1000) % 0x40) as byte,
       (0x80 + (n / 0x40) % 0x40) as byte, (0x80 + n % 0x40) as byte]
  }

  /** s.encode("utf-8") */
  function Utf8(s: string): seq<byte> {
    if s == [] then [] else EncodeChar(s[0]) + Utf8(s[1..])
  }

  /** A nonce the service accepts: 10 to 74 bytes once UTF-8 encoded, both ends included. */
  predicate ValidNonce(nonce: string) {
    MIN_BYTE_LEN <= |Utf8(nonce)| <= MAX_BYTE_LEN
  }

  /**
   * The message of the exception for a rejected nonce. The source's second
   * f-string, naming the upper bound, stands on a line of its own and is not
   * part of the message.
   */
  function NonceMessage(nonce: string): string {
    "Nonce '" + nonce + "' must be between 10 bytes"
  }

  /** _check_nonce_length: the first nonce out of range raises; otherwise the check passes. */
  function NonceCheck(nonces: seq<string>): Outcome {
    if nonces == [] then Pass
    else if !ValidNonce(nonces[0]) then Fail(AttestationError(NonceMessage(nonces[0])))
    else NonceCheck(nonces[1..])
  }

  /** The loop of _check_nonce_length. */
  method CheckNonceLength(nonces: seq<string>) returns (r: Outcome)
    ensures r == NonceCheck(nonces)
  {
    var i := 0;
    while i < |nonces|
      invariant 0 <= i <= |nonces|
      invariant NonceCheck(nonces) == NonceCheck(nonces[i..])
    {
      var byteLen := |Utf8(nonces[i])|;
      if byteLen < MIN_BYTE_LEN || byteLen > MAX_BYTE_LEN {
        return Fail(AttestationError(NonceMessage(nonces[i])));
      }
      assert nonces[i..][1..] == nonces[i + 1..];
      i := i + 1;
    }
    assert nonces[i..] == [];
    r := Pass;
  }

  /** The check passes exactly when every nonce is in range; an empty list passes. */
  lemma {:induction false} NonceCheckPasses(nonces: seq<string>)
    ensures NonceCheck(nonces) == Pass <==> forall i :: 0 <= i < |nonces| ==> ValidNonce(nonces[i])
  {
    if nonces != [] {
      NonceCheckPasses(nonces[1..]);
      assert forall i :: 1 <= i < |nonces| ==> nonces[i] == nonces[1..][i - 1];
    }
  }

  /** A failure names the first nonce out of range. */
  lemma {:induction false} NonceCheckNamesFirstInvalid(nonces: seq<string>, k: nat)
    requires k < |nonces| && !ValidNonce(nonces[k])
    requires forall j :: 0 <= j < k ==> ValidNonce(nonces[j])
    ensures NonceCheck(nonces) == Fail(AttestationError(NonceMessage(nonces[k])))
  {
    if k > 0 {
      assert ValidNonce(nonces[0]);
      NonceCheckNamesFirstInvalid(nonces[1..], k - 1);
    }
  }

  /** Every character takes one to four bytes. */
  lemma {:induction false} Utf8Bounds(s: string)
    ensures |s| <= |Utf8(s)| <= 4 * |s|
  {
    if s != [] {
      Utf8Bounds(s[1..]);
    }
  }

  /** An ASCII string takes one byte per character, each the character's own code. */
  lemma {:induction false} Utf8Ascii(s: string)
    requires forall i :: 0 <= i < |s| ==> (s[i] as int) < 0x80
    ensures |Utf8(s)| == |s|
    ensures forall i :: 0 <= i < |s| ==> Utf8(s)[i] as int == s[i] as int
  {
    if s != [] {
      Utf8Ascii(s[1..]);
    }
  }

  /** Length is counted in bytes: five two-byte characters pass, nine ASCII ones do not. */
  lemma BytesNotCharacters()
    ensures ValidNonce("ééééé")
    ensures !ValidNonce("abcdefghi")
  {
    Utf8Ascii("abcdefghi");
    var e := "ééééé";
    assert |EncodeChar('é')| == 2;
    assert e[1..][1..][1..][1..][1..] == [];
  }

  const TOKEN_ENDPOINT: string := "/v1/token"
  const DEFAULT_AUDIENCE: string := "https://sts.google.com"
  const DEFAULT_TOKEN_TYPE: string := "OIDC"

  /** The POST of get_token: its endpoint and the fields of its JSON body. */
  datatype TokenRequest = TokenRequest(endpoint: string, audience: string, tokenType: string, nonces: seq<string>)

  /** One exchange with the attestation service: an HTTP answer, or an exception of the transport. */
  datatype SocketAnswer =
    | Answered(status: nat, reason: string, body: string)
    | SocketFailed(error: Error)

  type Service = TokenRequest -> SocketAnswer

  /** The synchronous _post: any status but 200 raises, naming the status and reason. */
  function PostSync(a: SocketAnswer): Result<string> {
    match a
    case SocketFailed(e) => Err(e)
    case Answered(status, reason, body) =>
      if status != 200 then
        Err(AttestationError("Failed to get attestation response: " + NatToString(status) + " " + reason))
      else Ok(body)
  }

  /** The synchronous get_token: the nonce check, then the simulated token or the service's answer. */
  function SyncToken(simulate: bool, simToken: string, nonces: seq<string>, audience: string,
                     tokenType: string, service: Service): Result<string>
  {
    match NonceCheck(nonces)
    case Fail(e) => Err(e)
    case Pass =>
      if simulate then Ok(simToken)
      else PostSync(service(TokenRequest(TOKEN_ENDPOINT, audience, tokenType, nonces)))
  }

  /** The asynchronous _post: unusable without a session; no status check; any failure becomes "Request failed". */
  function PostAsync(session: bool, a: SocketAnswer): Result<string> {
    if !session then Err(AttestationError("Client not connected. Call connect() first."))
    else match a
      case SocketFailed(_) => Err(AttestationError("Request failed"))
      case Answered(_, _, body) => Ok(body)
  }

  /** The asynchronous get_token: the nonce check, then the post. */
  function AsyncToken(session: bool, nonces: seq<string>, audience: string, tokenType: string,
                      service: Service): Result<string>
  {
    match NonceCheck(nonces)
    case Fail(e) => Err(e)
    case Pass => PostAsync(session, service(TokenRequest(TOKEN_ENDPOINT, audience, tokenType, nonces)))
  }

  /** The check comes first: an invalid nonce raises even in simulate mode, and nothing is posted. */
  lemma SyncValidatesFirst(simulate: bool, simToken: string, nonces: seq<string>, audience: string,
                           tokenType: string, service: Service, k: nat)
    requires k < |nonces| && !ValidNonce(nonces[k])
    requires forall j :: 0 <= j < k ==> ValidNonce(nonces[j])
    ensures SyncToken(simulate, simToken, nonces, audience, tokenType, service)
         == Err(AttestationError(NonceMessage(nonces[k])))
  {
    NonceCheckNamesFirstInvalid(nonces, k);
  }

  /** In simulate mode valid nonces get the simulated token, whatever the service would say. */
  lemma SyncSimulated(simToken: string, nonces: seq<string>, audience: string, tokenType: string, service: Service)
    requires forall i :: 0 <= i < |nonces| ==> ValidNonce(nonces[i])
    ensures SyncToken(true, simToken, nonces, audience, tokenType, service) == Ok(simToken)
  {
    NonceCheckPasses(nonces);
  }

  /** Otherwise a token is the body of a 200 answer to the request for exactly these nonces. */
  lemma SyncPosted(nonces: seq<string>, audience: string, tokenType: string, service: Service, token: string)
    ensures SyncToken(false, "", nonces, audience, tokenType, service) == Ok(token)
        <==> (forall i :: 0 <= i < |nonces| ==> ValidNonce(nonces[i]))
             && var a := service(TokenRequest(TOKEN_ENDPOINT, audience, tokenType, nonces));
                a.Answered? && a.status == 200 && a.body == token
  {
    NonceCheckPasses(nonces);
  }

  /** The asynchronous client validates before it posts, session or not. */
  lemma AsyncValidatesFirst(session: bool, nonces: seq<string>, audience: string, tokenType: string,
                            service: Service, k: nat)
    requires k < |nonces| && !ValidNonce(nonces[k])
    requires forall j :: 0 <= j < k ==> ValidNonce(nonces[j])
    ensures AsyncToken(session, nonces, audience, tokenType, service)
         == Err(AttestationError(NonceMessage(nonces[k])))
  {
    NonceCheckNamesFirstInvalid(nonces, k);
  }

  /** With valid nonces and no session, the asynchronous client refuses to post. */
  lemma AsyncNeedsSession(nonces: seq<string>, audience: string, tokenType: string, service: Service)
    requires forall i :: 0 <= i < |nonces| ==> ValidNonce(nonces[i])
    ensures AsyncToken(false, nonces, audience, tokenType, service)
         == Err(AttestationError("Client not connected. Call connect() first."))
  {
    NonceCheckPasses(nonces);
  }

  /** Unlike the synchronous client, the asynchronous one returns the body whatever the status. */
  lemma AsyncIgnoresStatus(status: nat, reason: string, body: string)
    requires status != 200
    ensures PostAsync(true, Answered(status, reason, body)) == Ok(body)
    ensures PostSync(Answered(status, reason, body)).Err?
  {
  }
}
