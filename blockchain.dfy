/**
 * The Flare account and transaction store of
 * src/flare_ai_core/blockchain_service/flare.py: one optional account (address
 * and private key) and a queue of transactions awaiting the user's
 * confirmation, confirmed last-in first-out.
 *
 * The chain node is an oracle (Node) handed to each call that asks it
 * something, so that its answers may differ from call to call; the freshly
 * created account of generate_account is a parameter too.
 */
module Blockchain {
  import opened Wrappers
  import opened Text
  import opened JsonValues

  /** The transaction dictionary create_send_flr_tx builds. */
  datatype TxParams = TxParams(
    from: string,
    nonce: nat,
    to: string,
    value: nat,
    gas: nat,
    maxFeePerGas: nat,
    maxPriorityFeePerGas: nat,
    chainId: nat,
    txType: nat)

  /** A queued transaction, with the chat message that asked for it. */
  datatype TxQueueElement = TxQueueElement(msg: string, tx: TxParams)

  /** The key and address bytes of an account made by Account.create. */
  datatype NewAccount = NewAccount(key: seq<byte>, address: seq<byte>)

  /** The answers of the node behind the Web3 provider, and of eth_account's signing. */
  datatype Node = Node(
    checksum: Option<Json> -> Result<string>,          // w3.to_checksum_address
    toWei: Option<Json> -> Result<nat>,                // w3.to_wei(amount, unit="ether")
    transactionCount: string -> Result<nat>,           // eth.get_transaction_count
    gasPrice: Result<nat>,                             // eth.gas_price
    maxPriorityFee: Result<nat>,                       // eth.max_priority_fee
    chainId: Result<nat>,                              // eth.chain_id
    signAndSend: (TxParams, string) -> Result<seq<byte>>, // sign, send_raw_transaction, wait for the receipt
    balance: string -> Result<nat>)                    // eth.get_balance, in wei

  /** The store's fields, as a value. */
  datatype Wallet = Wallet(address: Option<string>, privateKey: Option<string>, txQueue: seq<TxQueueElement>)

  /** A new store, and one just reset: no account and nothing queued. */
  const Empty: Wallet := Wallet(None, None, [])

  /** Python truthiness of an optional string: present and not empty. */
  predicate Truthy(s: Option<string>) {
    s.Some? && s.value != []
  }

  /** add_tx_to_queue */
  function Enqueue(w: Wallet, msg: string, tx: TxParams): Wallet {
    w.(txQueue := w.txQueue + [TxQueueElement(msg, tx)])
  }

  /** sign_and_send_transaction: needs both key and address; gives the hash as 0x-prefixed hex. */
  function SignAndSend(w: Wallet, tx: TxParams, node: Node): Result<string> {
    if !Truthy(w.privateKey) || !Truthy(w.address) then Err(ValueError("Account not initialized"))
    else
      var hash :- node.signAndSend(tx, w.privateKey.value);
      Ok("0x" + Hex(hash))
  }

  /** send_tx_in_queue: signs the last queued transaction and pops it, only once signing returned. */
  function SendQueued(w: Wallet, node: Node): (Result<string>, Wallet) {
    if w.txQueue == [] then (Err(ValueError("Unable to find confirmed tx")), w)
    else
      var last := w.txQueue[|w.txQueue| - 1];
      match SignAndSend(w, last.tx, node)
      case Err(e) => (Err(e), w)
      case Ok(h) => (Ok(h), w.(txQueue := w.txQueue[..|w.txQueue| - 1]))
  }

  /** The address of a new account; the EIP-55 capitalisation of to_checksum_address is not modelled. */
  function AddressOf(account: NewAccount): string {
    "0x" + Hex(account.address)
  }

  /** generate_account: replaces key and address, keeps the queue, returns the address. */
  function Generated(w: Wallet, account: NewAccount): (string, Wallet) {
    (AddressOf(account), w.(privateKey := Some(Hex(account.key)), address := Some(AddressOf(account))))
  }

  /** check_balance, in wei: the conversion to a float number of ether is not modelled. */
  function Balance(w: Wallet, node: Node): Result<nat> {
    if !Truthy(w.address) then Err(ValueError("Account does not exist"))
    else node.balance(w.address.value)
  }

  /** create_send_flr_tx: the node is asked in the order the dictionary's entries are written. */
  function SendFlrTx(w: Wallet, to: Option<Json>, amount: Option<Json>, node: Node): Result<TxParams> {
    if !Truthy(w.address) then Err(ValueError("Account does not exist"))
    else
      var from := w.address.value;
      var nonce :- node.transactionCount(from);
      var toAddress :- node.checksum(to);
      var value :- node.toWei(amount);
      var maxFee :- node.gasPrice;
      var priorityFee :- node.maxPriorityFee;
      var chainId :- node.chainId;
      Ok(TxParams(from, nonce, toAddress, value, 21000, maxFee, priorityFee, chainId, 2))
  }

  class Flare {
    var address: Option<string>
    var privateKey: Option<string>
    var txQueue: seq<TxQueueElement>

    function State(): Wallet
      reads this
    {
      Wallet(address, privateKey, txQueue)
    }

    /** Flare(web3_provider_url): the URL only configures the node oracle. */
    constructor ()
      ensures State() == Empty
    {
      address := None;
      privateKey := None;
      txQueue := [];
    }

    method Reset() returns (r: string)
      modifies this
      ensures State() == Empty
      ensures r == "Reset account history"
    {
      address := None;
      privateKey := None;
      txQueue := [];
      r := "Reset account history";
    }

    method AddTxToQueue(msg: string, tx: TxParams)
      modifies this
      ensures State() == Enqueue(old(State()), msg, tx)
    {
      txQueue := txQueue + [TxQueueElement(msg, tx)];
    }

    method SignAndSendTransaction(tx: TxParams, node: Node) returns (r: Result<string>)
      ensures r == SignAndSend(State(), tx, node)
    {
      if privateKey.None? || privateKey.value == [] || address.None? || address.value == [] {
        return Err(ValueError("Account not initialized"));
      }
      var sent := node.signAndSend(tx, privateKey.value);
      if sent.Err? {
        return Err(sent.error);
      }
      r := Ok("0x" + Hex(sent.value));
    }

    method SendTxInQueue(node: Node) returns (r: Result<string>)
      modifies this
      ensures (r, State()) == SendQueued(old(State()), node)
    {
      if txQueue == [] {
        return Err(ValueError("Unable to find confirmed tx"));
      }
      r := SignAndSendTransaction(txQueue[|txQueue| - 1].tx, node);
      if r.Ok? {
        txQueue := txQueue[..|txQueue| - 1];
      }
    }

    method GenerateAccount(account: NewAccount) returns (r: string)
      modifies this
      ensures (r, State()) == Generated(old(State()), account)
    {
      privateKey := Some(Hex(account.key));
      address := Some(AddressOf(account));
      r := address.value;
    }

    method CheckBalance(node: Node) returns (r: Result<nat>)
      ensures r == Balance(State(), node)
    {
      if address.None? || address.value == [] {
        return Err(ValueError("Account does not exist"));
      }
      r := node.balance(address.value);
    }

    method CreateSendFlrTx(to: Option<Json>, amount: Option<Json>, node: Node) returns (r: Result<TxParams>)
      ensures r == SendFlrTx(State(), to, amount, node)
    {
      if address.None? || address.value == [] {
        return Err(ValueError("Account does not exist"));
      }
      var nonce :- node.transactionCount(address.value);
      var toAddress :- node.checksum(to);
      var value :- node.toWei(amount);
      var maxFee :- node.gasPrice;
      var priorityFee :- node.maxPriorityFee;
      var chainId :- node.chainId;
      r := Ok(TxParams(address.value, nonce, toAddress, value, 21000, maxFee, priorityFee, chainId, 2));
    }
  }

  /** Queueing appends one element at the end; the account and the earlier elements stay. */
  lemma EnqueueAppends(w: Wallet, msg: string, tx: TxParams)
    ensures var w' := Enqueue(w, msg, tx);
      && |w'.txQueue| == |w.txQueue| + 1
      && w'.txQueue[..|w.txQueue|] == w.txQueue
      && w'.txQueue[|w.txQueue|] == TxQueueElement(msg, tx)
      && w'.address == w.address && w'.privateKey == w.privateKey
  {
  }

  /** Confirming with nothing queued raises ValueError and changes nothing. */
  lemma SendEmptyQueue(w: Wallet, node: Node)
    requires w.txQueue == []
    ensures SendQueued(w, node) == (Err(ValueError("Unable to find confirmed tx")), w)
  {
  }

  /**
   * Confirming signs the last queued transaction; on success exactly that element
   * is removed, on failure the queue is unchanged; the account is never touched.
   */
  lemma SendSignsLast(w: Wallet, node: Node)
    requires w.txQueue != []
    ensures var (r, w') := SendQueued(w, node);
      var n := |w.txQueue|;
      && r == SignAndSend(w, w.txQueue[n - 1].tx, node)
      && w'.address == w.address && w'.privateKey == w.privateKey
      && (r.Ok? ==> w'.txQueue == w.txQueue[..n - 1])
      && (r.Err? ==> w'.txQueue == w.txQueue)
  {
  }

  /** Last in, first out: what was queued last is what a confirmation sends, and popping it restores the queue. */
  lemma EnqueueThenSend(w: Wallet, msg: string, tx: TxParams, node: Node)
    ensures SendQueued(Enqueue(w, msg, tx), node).0 == SignAndSend(w, tx, node)
    ensures SendQueued(Enqueue(w, msg, tx), node).0.Ok? ==> SendQueued(Enqueue(w, msg, tx), node).1 == w
    ensures SendQueued(Enqueue(w, msg, tx), node).0.Err? ==> SendQueued(Enqueue(w, msg, tx), node).1 == Enqueue(w, msg, tx)
  {
    var w' := Enqueue(w, msg, tx);
    assert w'.txQueue[..|w'.txQueue| - 1] == w.txQueue;
    assert SignAndSend(w', tx, node) == SignAndSend(w, tx, node);
  }

  /** Signing needs a key and an address; a hash comes back as "0x" and its hex digits. */
  lemma SignAndSendGuard(w: Wallet, tx: TxParams, node: Node)
    ensures !Truthy(w.privateKey) || !Truthy(w.address) ==> SignAndSend(w, tx, node) == Err(ValueError("Account not initialized"))
    ensures SignAndSend(w, tx, node).Ok? ==>
      && Truthy(w.privateKey) && Truthy(w.address)
      && node.signAndSend(tx, w.privateKey.value).Ok?
      && SignAndSend(w, tx, node).value == "0x" + Hex(node.signAndSend(tx, w.privateKey.value).value)
      && StartsWith(SignAndSend(w, tx, node).value, "0x")
  {
  }

  /**
   * generate_account sets both key and address, returns the address, which
   * starts with "0x" and holds two hex digits per address byte, and leaves the queue.
   */
  lemma GenerateAccountSets(w: Wallet, account: NewAccount)
    ensures var (addr, w') := Generated(w, account);
      && StartsWith(addr, "0x") && |addr| == 2 + 2 * |account.address|
      && w'.address == Some(addr) && w'.privateKey == Some(Hex(account.key))
      && w'.txQueue == w.txQueue
  {
    var addr := Generated(w, account).0;
    assert addr[..2] == "0x";
  }

  /** After generating an account with a non-empty key, signing is no longer refused for want of one. */
  lemma GeneratedAccountSigns(w: Wallet, account: NewAccount, tx: TxParams, node: Node)
    requires |account.key| > 0
    ensures var w' := Generated(w, account).1;
      SignAndSend(w', tx, node).Ok? <==> node.signAndSend(tx, Hex(account.key)).Ok?
  {
  }

  /** Without an address a transaction cannot be built nor a balance read. */
  lemma NoAddressGuards(w: Wallet, to: Option<Json>, amount: Option<Json>, node: Node)
    requires !Truthy(w.address)
    ensures SendFlrTx(w, to, amount, node) == Err(ValueError("Account does not exist"))
    ensures Balance(w, node) == Err(ValueError("Account does not exist"))
  {
  }

  /**
   * A built transaction is sent from the store's address, to the checksummed
   * recipient, for the converted amount, with gas 21000 and type 2.
   */
  lemma SendFlrTxFields(w: Wallet, to: Option<Json>, amount: Option<Json>, node: Node)
    requires SendFlrTx(w, to, amount, node).Ok?
    ensures var tx := SendFlrTx(w, to, amount, node).value;
      && Truthy(w.address) && tx.from == w.address.value
      && node.checksum(to) == Ok(tx.to) && node.toWei(amount) == Ok(tx.value)
      && tx.gas == 21000 && tx.txType == 2
  {
  }

  /** After a reset there is nothing to confirm and no account to sign or build with. */
  lemma ResetForgets(tx: TxParams, to: Option<Json>, amount: Option<Json>, node: Node)
    ensures SendQueued(Empty, node).0 == Err(ValueError("Unable to find confirmed tx"))
    ensures SignAndSend(Empty, tx, node) == Err(ValueError("Account not initialized"))
    ensures SendFlrTx(Empty, to, amount, node) == Err(ValueError("Account does not exist"))
  {
  }
}
