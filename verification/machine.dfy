/** The token as one sequential state machine: every externally callable
    operation as a value, the call interface that decodes amounts as 256-bit
    words, and runs of calls in which a rejected call leaves no trace. */
module Machine {
  import opened Base
  import opened BalanceLedger
  import opened Access
  import opened Split
  import opened TokenState
  import opened StandardToken
  import opened MintWorkflow
  import opened Governance
  import opened Delegate

  /** A call's operation and arguments, grouped by the component that
      handles it. Amounts are raw numbers as a caller may pass them; the
      interface reduces them to 256-bit words. */
  datatype IssuanceOp =
    | PreMintOp
    | SubmitOp(beneficiary: Address, amount: nat)
    | ConfirmOp(id: nat)
    | MintOp(to: Address, amount: nat)

  datatype TokenOp =
    | TransferOp(to: Address, value: nat)
    | TransferFromOp(from: Address, to: Address, value: nat)
    | ApproveOp(spender: Address, value: nat)
    | IncreaseApprovalOp(spender: Address, value: nat)
    | DecreaseApprovalOp(spender: Address, value: nat)
    | BurnOp(value: nat, note: string)

  datatype GovernanceOp =
    | ChangePaidRatesOp(system: nat, writer: nat)
    | ChangeWalletOp(addr: Address)
    | ChangeDeputationOp(addr: Address)
    | PauseOp
    | UnpauseOp
    | SetDelegatedFromOp(addr: Address)
    | GrantOp(role: Role, addrs: seq<Address>)
    | RevokeOp(role: Role, addrs: seq<Address>)
    | TransferOwnershipOp(newOwner: Address)
    | ClaimOwnershipOp

  datatype DelegateOp =
    | DelegateTransferOp(to: Address, value: nat, origin: Address)
    | DelegateTransferFromOp(from: Address, to: Address, value: nat, spender: Address)
    | DelegateApproveOp(spender: Address, value: nat, origin: Address)
    | DelegateIncreaseApprovalOp(spender: Address, value: nat, origin: Address)
    | DelegateDecreaseApprovalOp(spender: Address, value: nat, origin: Address)
    | DelegateBurnOp(from: Address, value: nat, note: string)

  datatype Op =
    | IssuanceCall(issuance: IssuanceOp)
    | TokenCall(token: TokenOp)
    | GovernanceCall(governance: GovernanceOp)
    | DelegateCall(delegated: DelegateOp)

  datatype Call = Call(caller: Address, op: Op)

  /** What no call ever undoes: a registered holder is never removed or
      moved, a mint request is never rewritten except to mark it executed,
      preMint is never undone, and the token's own address and
      INITIAL_SUPPLY never change. */
  predicate Evolves(s: State, t: State) {
    && HoldersExtend(s, t)
    && RequestsExtend(s, t)
    && t.self == s.self && t.initialSupply == s.initialSupply
    && (s.preMinted ==> t.preMinted)
  }

  function ExecIssuance(s: State, who: Address, op: IssuanceOp): (r: Result<Step>)
    ensures r.Ok? ==> Evolves(s, r.value.next)
  {
    match op
    case PreMintOp => PreMint(s, who)
    case SubmitOp(b, a) => SubmitMintRequest(s, who, b, Truncate(a))
    case ConfirmOp(id) =>
      var r := ConfirmMintRequest(s, who, id);
      if r.Ok? then MintRegistry(s, s.mintRequests[id].beneficiary, s.mintRequests[id].amount); r else r
    case MintOp(to, a) =>
      var r := Mint(s, who, to, Truncate(a));
      if r.Ok? then MintRegistry(s, to, Truncate(a)); r else r
  }

  function ExecToken(s: State, who: Address, op: TokenOp): (r: Result<Step>)
    ensures r.Ok? ==> Evolves(s, r.value.next)
  {
    match op
    case TransferOp(to, v) => Transfer(s, who, to, Truncate(v))
    case TransferFromOp(from, to, v) => TransferFrom(s, who, from, to, Truncate(v))
    case ApproveOp(sp, v) => Approve(s, who, sp, Truncate(v))
    case IncreaseApprovalOp(sp, v) => IncreaseApproval(s, who, sp, Truncate(v))
    case DecreaseApprovalOp(sp, v) => DecreaseApproval(s, who, sp, Truncate(v))
    case BurnOp(v, note) => Burn(s, who, Truncate(v), note)
  }

  function ExecGovernance(s: State, who: Address, op: GovernanceOp): (r: Result<Step>)
    ensures r.Ok? ==> Evolves(s, r.value.next)
  {
    match op
    case ChangePaidRatesOp(sys, wri) => ChangePaidRates(s, who, Truncate(sys), Truncate(wri))
    case ChangeWalletOp(a) => ChangeWallet(s, who, a)
    case ChangeDeputationOp(a) => ChangeDeputation(s, who, a)
    case PauseOp => Pause(s, who)
    case UnpauseOp => Unpause(s, who)
    case SetDelegatedFromOp(a) => SetDelegatedFrom(s, who, a)
    case GrantOp(role, addrs) => GrantRole(s, who, role, addrs)
    case RevokeOp(role, addrs) => RevokeRole(s, who, role, addrs)
    case TransferOwnershipOp(n) => NominateOwner(s, who, n)
    case ClaimOwnershipOp => ClaimTokenOwnership(s, who)
  }

  function ExecDelegate(s: State, who: Address, op: DelegateOp): (r: Result<Step>)
    ensures r.Ok? ==> Evolves(s, r.value.next)
  {
    match op
    case DelegateTransferOp(to, v, origin) => DelegateTransfer(s, who, to, Truncate(v), origin)
    case DelegateTransferFromOp(from, to, v, sp) => DelegateTransferFrom(s, who, from, to, Truncate(v), sp)
    case DelegateApproveOp(sp, v, origin) => DelegateApprove(s, who, sp, Truncate(v), origin)
    case DelegateIncreaseApprovalOp(sp, v, origin) => DelegateIncreaseApproval(s, who, sp, Truncate(v), origin)
    case DelegateDecreaseApprovalOp(sp, v, origin) => DelegateDecreaseApproval(s, who, sp, Truncate(v), origin)
    case DelegateBurnOp(from, v, note) => DelegateBurn(s, who, from, Truncate(v), note)
  }

  /** One call against the token. */
  function Exec(s: State, c: Call): (r: Result<Step>)
    ensures r.Ok? ==> Evolves(s, r.value.next)
  {
    match c.op
    case IssuanceCall(op) => ExecIssuance(s, c.caller, op)
    case TokenCall(op) => ExecToken(s, c.caller, op)
    case GovernanceCall(op) => ExecGovernance(s, c.caller, op)
    case DelegateCall(op) => ExecDelegate(s, c.caller, op)
  }

  /** A sequence of calls in order; a rejected call is reverted and the run
      goes on from the state before it. */
  function Run(s: State, calls: seq<Call>): (t: State)
    ensures Evolves(s, t)
    decreases |calls|
  {
    if calls == [] then s
    else
      var r := Exec(s, calls[0]);
      Run(if r.Ok? then r.value.next else s, calls[1..])
  }

  lemma IssuanceKeepsValid(s: State, who: Address, op: IssuanceOp)
    requires Valid(s) && ExecIssuance(s, who, op).Ok?
    ensures Valid(ExecIssuance(s, who, op).value.next)
  {
    match op
    case PreMintOp => PreMintKeepsValid(s, who);
    case SubmitOp(b, a) => SubmitKeepsValid(s, who, b, Truncate(a));
    case ConfirmOp(id) => ConfirmKeepsValid(s, who, id);
    case MintOp(to, a) => MintKeepsValid(s, who, to, Truncate(a));
  }

  lemma TokenOpKeepsValid(s: State, who: Address, op: TokenOp)
    requires Valid(s) && ExecToken(s, who, op).Ok?
    ensures Valid(ExecToken(s, who, op).value.next)
  {
    match op
    case TransferOp(to, v) => TransferKeepsValid(s, who, to, Truncate(v));
    case TransferFromOp(from, to, v) => TransferFromKeepsValid(s, who, from, to, Truncate(v));
    case ApproveOp(sp, v) => ApproveKeepsValid(s, who, sp, Truncate(v));
    case IncreaseApprovalOp(sp, v) => IncreaseApprovalKeepsValid(s, who, sp, Truncate(v));
    case DecreaseApprovalOp(sp, v) => DecreaseApprovalKeepsValid(s, who, sp, Truncate(v));
    case BurnOp(v, note) => BurnKeepsValid(s, who, Truncate(v), note);
  }

  lemma GovernanceKeepsValid(s: State, who: Address, op: GovernanceOp)
    requires Valid(s) && ExecGovernance(s, who, op).Ok?
    ensures Valid(ExecGovernance(s, who, op).value.next)
  {
    match op
    case ChangePaidRatesOp(sys, wri) => ChangePaidRatesKeepsValid(s, who, Truncate(sys), Truncate(wri));
    case ChangeWalletOp(a) => ChangeWalletKeepsValid(s, who, a);
    case ChangeDeputationOp(a) => ChangeDeputationKeepsValid(s, who, a);
    case _ =>
  }

  lemma DelegateOpKeepsValid(s: State, who: Address, op: DelegateOp)
    requires Valid(s) && ExecDelegate(s, who, op).Ok?
    ensures Valid(ExecDelegate(s, who, op).value.next)
  {
    match op
    case DelegateTransferOp(to, v, origin) => DelegateTransferKeepsValid(s, who, to, Truncate(v), origin);
    case DelegateTransferFromOp(from, to, v, sp) =>
      DelegateTransferFromKeepsValid(s, who, from, to, Truncate(v), sp);
    case DelegateApproveOp(sp, v, origin) => ApproveKeepsValid(s, origin, sp, Truncate(v));
    case DelegateIncreaseApprovalOp(sp, v, origin) => IncreaseApprovalKeepsValid(s, origin, sp, Truncate(v));
    case DelegateDecreaseApprovalOp(sp, v, origin) => DecreaseApprovalKeepsValid(s, origin, sp, Truncate(v));
    case DelegateBurnOp(from, v, note) => DelegateBurnKeepsValid(s, who, from, Truncate(v), note);
  }

  /** Every call keeps the contract invariant. */
  lemma ExecKeepsValid(s: State, c: Call)
    requires Valid(s) && Exec(s, c).Ok?
    ensures Valid(Exec(s, c).value.next)
  {
    match c.op
    case IssuanceCall(op) => IssuanceKeepsValid(s, c.caller, op);
    case TokenCall(op) => TokenOpKeepsValid(s, c.caller, op);
    case GovernanceCall(op) => GovernanceKeepsValid(s, c.caller, op);
    case DelegateCall(op) => DelegateOpKeepsValid(s, c.caller, op);
  }

  /** Every run from a valid state ends in a valid state: the supply is
      always the sum of the balances and fits a word, the registry has no
      duplicates and lists every funded account, and so on. */
  lemma {:induction false} RunKeepsValid(s: State, calls: seq<Call>)
    requires Valid(s)
    ensures Valid(Run(s, calls))
    decreases |calls|
  {
    if calls != [] {
      var r := Exec(s, calls[0]);
      if r.Ok? {
        ExecKeepsValid(s, calls[0]);
      }
      RunKeepsValid(if r.Ok? then r.value.next else s, calls[1..]);
    }
  }

  /** Every state reachable from deployment is valid. */
  lemma ReachableValid(self: Address, owner: Address, wallet: Address, deputation: Address,
                       initialSupply: Uint256, calls: seq<Call>)
    requires wallet != Null && deputation != Null
    ensures Valid(Run(Init(self, owner, wallet, deputation, initialSupply), calls))
  {
    InitValid(self, owner, wallet, deputation, initialSupply);
    RunKeepsValid(Init(self, owner, wallet, deputation, initialSupply), calls);
  }

  /** An executed request stays executed whatever follows: no run can make
      a confirmed mint confirmable again. */
  lemma ExecutedStaysExecuted(s: State, calls: seq<Call>, id: nat)
    requires id < MintRequestCount(s) && s.mintRequests[id].isExecuted
    ensures id < MintRequestCount(Run(s, calls))
    ensures Run(s, calls).mintRequests[id].isExecuted
    ensures forall admin :: ConfirmMintRequest(Run(s, calls), admin, id).Err?
  {
  }

  /** Approving an amount that is a multiple of 2^256 (such as 2^256
      itself) leaves an allowance of 0. */
  lemma ApproveBeyondWordIsZero(s: State, caller: Address, spender: Address, raw: nat)
    requires !s.paused && raw % TWO_256 == 0
    ensures Exec(s, Call(caller, TokenCall(ApproveOp(spender, raw)))).Ok?
    ensures Allowance(Exec(s, Call(caller, TokenCall(ApproveOp(spender, raw)))).value.next, caller, spender) == 0
  {
  }

  /** Transferring such an amount moves nothing. */
  lemma TransferBeyondWordMovesNothing(s: State, caller: Address, to: Address, raw: nat)
    requires !s.paused && raw % TWO_256 == 0 && to != Null
    ensures Exec(s, Call(caller, TokenCall(TransferOp(to, raw)))).Ok?
    ensures forall a :: Balance(Exec(s, Call(caller, TokenCall(TransferOp(to, raw)))).value.next, a) == Balance(s, a)
  {
  }

  /** So does transferFrom-ing it, even against a zero allowance. */
  lemma TransferFromBeyondWordMovesNothing(s: State, caller: Address, from: Address, to: Address, raw: nat)
    requires !s.paused && raw % TWO_256 == 0 && to != Null
    ensures Exec(s, Call(caller, TokenCall(TransferFromOp(from, to, raw)))).Ok?
    ensures forall a :: Balance(Exec(s, Call(caller, TokenCall(TransferFromOp(from, to, raw)))).value.next, a) == Balance(s, a)
  {
  }

  /** The largest word is a real amount: transferring it, or
      transferFrom-ing it under an equal allowance, is refused when the
      sender holds less. */
  lemma MaxWordTransferRefused(s: State, caller: Address, to: Address)
    requires !s.paused && to != Null && Balance(s, caller) < MAX_UINT
    ensures Exec(s, Call(caller, TokenCall(TransferOp(to, MAX_UINT)))) == Err(InsufficientFunds)
    ensures Exec(s, Call(to, TokenCall(TransferFromOp(caller, to, MAX_UINT)))) == Err(InsufficientFunds)
  {
  }

  /** An admin mint of 100 to a fresh writer leaves the writer 70 at the
      default rates; the writer's transfer of those 70 to the null address
      burns them and leaves the writer with nothing. */
  lemma MintThenWithdrawAll(s: State, admin: Address, writer: Address, unit: nat)
    requires 100 * unit < TWO_256 && Mint(s, admin, writer, 100 * unit).Ok?
    requires s.rates == DefaultRates && Balance(s, writer) == 0 && !s.paused
    requires writer != s.wallet && writer != s.deputation
    ensures var t := Mint(s, admin, writer, 100 * unit).value.next;
            && Balance(t, writer) == 70 * unit
            && Transfer(t, writer, Null, 70 * unit).Ok?
            && Balance(Transfer(t, writer, Null, 70 * unit).value.next, writer) == 0
            && Transfer(t, writer, Null, 70 * unit).value.log == [Burned(writer, 70 * unit, "")]
  {
    var t := Mint(s, admin, writer, 100 * unit).value.next;
    DefaultSplitPerHundred(unit);
    assert Balance(t, writer) == 70 * unit && TotalSupply(t) >= 70 * unit;
    assert Transfer(t, writer, Null, 70 * unit) == Burn(t, writer, 70 * unit, "");
  }
}
