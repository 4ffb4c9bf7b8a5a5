/** Accounts, transactions, the EVM as an oracle, and the two databases a build works on. */
module Evm {
  import opened Wrappers
  import opened Words

  type Address = nat
  type Hash = nat

  /** Gas reserved in every block for the builder's own transfer at its end. */
  const MAX_BUILDER_TRANSFER_GAS_LIMIT: nat := 32000

  /** EIP-4844, section "Parameters": six blobs of 131072 gas each. */
  const MAX_DATA_GAS_PER_BLOCK: nat := 786432

  datatype Account = Account(nonce: nat, balance: nat, code: nat, storage: map<nat, nat>)

  type World = map<Address, Account>

  function Balance(w: World, a: Address): nat {
    if a in w then w[a].balance else 0
  }

  function Nonce(w: World, a: Address): nat {
    if a in w then w[a].nonce else 0
  }

  predicate HasCode(w: World, a: Address) {
    a in w && w[a].code != 0
  }

  datatype Tx = Tx(
    hash: Hash,
    signer: Address,
    to: Option<Address>,
    nonce: nat,
    value: nat,
    gasLimit: nat,
    maxFeePerGas: nat,
    maxPriorityFeePerGas: Option<nat>,
    blobGas: Option<nat>)
  {
    /** None when the fee cap is below the base fee; a transaction without a
        priority cap pays everything above the base fee. */
    function EffectiveTip(baseFee: nat): Option<nat> {
      if maxFeePerGas < baseFee then None
      else
        var above := maxFeePerGas - baseFee;
        Some(if maxPriorityFeePerGas.Some? && maxPriorityFeePerGas.value < above
             then maxPriorityFeePerGas.value
             else above)
    }
  }

  /** NonceTooLow and InvalidTransaction reject the transaction; Internal is every other EVM error. */
  datatype EvmError = NonceTooLow | InvalidTransaction | Internal

  /** `state` holds the touched accounts after execution. */
  datatype EvmResult = EvmResult(success: bool, gasUsed: nat, state: World)

  datatype BuildConfig = BuildConfig(
    slot: nat,
    blockNumber: nat,
    blockGasLimit: nat,
    baseFee: U64,
    coinbase: Address,
    feeRecipient: Address,
    blacklist: set<Address>,
    transact: (World, Tx) -> Result<EvmResult, EvmError>,
    sign: (nat, Address, nat) -> Hash)
  {
    /** What the build relies on the EVM for: no transaction uses more gas than its limit. */
    ghost predicate GasBounded() {
      forall w, tx :: transact(w, tx).Success? ==> transact(w, tx).value.gasUsed <= tx.gasLimit
    }

    /** A successful transaction to an account without code, other than its signer's and the one that
        collects the fees, brings that account its value. */
    ghost predicate MovesValue() {
      forall w, tx :: MovesValueAt(w, tx)
    }

    predicate MovesValueAt(w: World, tx: Tx) {
      var r := transact(w, tx);
      r.Success? && r.value.success && tx.to.Some? && tx.to.value != tx.signer && tx.to.value != coinbase
      && !HasCode(w, tx.to.value) ==>
        Balance(w + r.value.state, tx.to.value) == Balance(w, tx.to.value) + tx.value
    }

    /** A transaction to an account without code succeeds if its nonce is its signer's, its gas limit
        admits a plain transfer, its fee cap the base fee, and the signer can pay for it all. */
    ghost predicate AcceptsTransfers() {
      forall w, tx :: AcceptsTransferAt(w, tx)
    }

    predicate AcceptsTransferAt(w: World, tx: Tx) {
      var r := transact(w, tx);
      tx.to.Some? && !HasCode(w, tx.to.value) && tx.nonce == Nonce(w, tx.signer)
      && tx.gasLimit >= 21000 && tx.maxFeePerGas >= baseFee && tx.blobGas.None?
      && Balance(w, tx.signer) >= tx.value + tx.gasLimit * tx.maxFeePerGas ==>
        r.Success? && r.value.success
    }

    predicate Touches(state: World) {
      exists a | a in blacklist :: a in state
    }

    /** The signer or the recipient of the transaction is blacklisted. */
    predicate Blacklisted(tx: Tx) {
      tx.signer in blacklist || (tx.to.Some? && tx.to.value in blacklist)
    }

    /** The transfer the builder signs from its own account: its nonce is the one in `w`, it
        may use the reserved gas, and it pays the base fee and no tip. */
    function TransferTx(w: World, recipient: Address, amount: nat): Tx {
      var nonce := Nonce(w, coinbase);
      Tx(sign(nonce, recipient, amount), coinbase, Some(recipient), nonce, amount,
         MAX_BUILDER_TRANSFER_GAS_LIMIT, baseFee, Some(0), None)
    }

    /** The transaction sends `amount` from the builder to `recipient`, with the nonce the builder's
        account has in `w`, 32000 gas, the base fee, no tip and no blobs. */
    predicate IsTransfer(w: World, tx: Tx, recipient: Address, amount: nat) {
      && tx.signer == coinbase && tx.to == Some(recipient) && tx.value == amount
      && tx.nonce == (if coinbase in w then w[coinbase].nonce else 0)
      && tx.gasLimit == 32000 && tx.maxFeePerGas == baseFee && tx.maxPriorityFeePerGas == Some(0) && tx.blobGas.None?
      && tx.hash == sign(tx.nonce, recipient, amount)
    }
  }

  /** The state the block is built on. */
  class ExecutionDB {
    var accounts: World

    constructor (accounts: World)
      ensures this.accounts == accounts
    {
      this.accounts := accounts;
    }

    method Commit(changes: World)
      modifies this
      ensures accounts == old(accounts) + changes
    {
      accounts := accounts + changes;
    }
  }

  /** A cache in front of an execution database: writes stay in the cache, reads fall through. */
  class SimulationDB {
    const inner: ExecutionDB
    var cache: World

    constructor (inner: ExecutionDB)
      ensures this.inner == inner && View() == inner.accounts
    {
      this.inner := inner;
      cache := map[];
    }

    function View(): World
      reads this, inner
    {
      inner.accounts + cache
    }

    method Basic(a: Address) returns (account: Option<Account>)
      ensures account == if a in View() then Some(View()[a]) else None
    {
      if a in cache {
        account := Some(cache[a]);
      } else if a in inner.accounts {
        account := Some(inner.accounts[a]);
      } else {
        account := None;
      }
    }

    method Commit(changes: World)
      modifies this
      ensures View() == old(View()) + changes
    {
      cache := cache + changes;
      assert inner.accounts + cache == old(inner.accounts + cache) + changes;
    }
  }
}
