/** Shared vocabulary of the MaskinToken model: account addresses, the
    256-bit word of the host platform, the error taxonomy, the result type
    every transition returns, and the domain events a transition emits. */
module Base {

  /** Accounts are opaque identifiers compared by equality only; 0 is the
      distinguished null address (no account, and the burn target). */
  type Address = nat

  const Null: Address := 0

  /** 2^256: the width of the platform's unsigned machine word. */
  const TWO_256: nat := 0x1_0000_0000_0000_0000_0000_0000_0000_0000_0000_0000_0000_0000_0000_0000_0000_0000_0000_0000

  /** The largest representable amount (MAX_UINT in the test helpers). */
  const MAX_UINT: nat := TWO_256 - 1

  type Uint256 = x: nat | x < TWO_256

  /** The call interface decodes an argument as a 256-bit word: a caller
      that passes a larger number gets it reduced modulo 2^256. */
  function Truncate(raw: nat): (r: Uint256)
    ensures raw < TWO_256 ==> r == raw
    ensures (raw - r) % TWO_256 == 0
  {
    raw % TWO_256
  }

  /** Every way a call can be rejected. A rejection carries no state: the
      caller keeps the state it had, so no partial effect survives. */
  datatype Error =
    | Unauthorized
    | InvalidArgument
    | AlreadyExecuted
    | AlreadyMinted
    | InvalidStateTransition
    | NotFound
    | IndexOutOfRange
    | InsufficientFunds
    | InsufficientAllowance
    | InsufficientPoolBalance
    | ContractPaused
    | LedgerNotConfigured
    | LengthMismatch
    | Overflow

  datatype Result<+T> = Ok(value: T) | Err(error: Error) {
    predicate IsFailure() {
      Err?
    }

    function PropagateFailure<U>(): Result<U>
      requires Err?
    {
      Err(error)
    }

    function Extract(): T
      requires Ok?
    {
      value
    }
  }

  /** Domain events. Source names: Transfer, Approval, Burn, Mint,
      MintSubmission, ConfirmMintRequest, ChangePaidRates, ChangeWallet,
      ChangeDeputation, DelegatedFromSet, Pause, Unpause, SetToken,
      FundsDistributed. */
  datatype Event =
    | Transferred(from: Address, to: Address, value: nat)
    | Approved(owner: Address, spender: Address, value: nat)
    | Burned(burner: Address, value: nat, note: string)
    | Minted(to: Address, value: nat)
    | MintSubmitted(mintRequestID: nat, beneficiary: Address, amount: nat)
    | MintConfirmed(mintRequestID: nat, addr: Address, value: nat)
    | PaidRatesChanged(systemPaidRate: nat, writerPaidRate: nat)
    | WalletChanged(addr: Address)
    | DeputationChanged(addr: Address)
    | DelegatedFromSet(addr: Address)
    | PauseSet
    | PauseLifted
    | TokenSet(maskinToken: Address)
    | FundsDistributed(holders: seq<Address>, amounts: seq<nat>)
}
