/**
 * The collaborators both chat routers call, bundled as oracles: their answers
 * are parameters of every step, never computed by the model.
 */
module Collaborators {
  import opened Wrappers
  import opened JsonValues
  import opened Ai
  import opened Blockchain
  import VtpmProtocol

  /**
   * The model service, json.loads, the chain node, Web3.from_wei's rendering of
   * an amount in ether, the account Account.create would make, and the
   * attestation socket.
   */
  datatype Env = Env(
    ai: Model,
    loads: string -> Result<Json>,
    node: Node,
    fromWei: nat -> string,
    account: NewAccount,
    service: VtpmProtocol.Service)
}
