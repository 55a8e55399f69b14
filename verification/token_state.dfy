/** The whole state of one MaskinToken contract, its invariant, and the
    read-only queries the contract exposes. */
module TokenState {
  import opened Base
  import opened BalanceLedger
  import opened Access
  import opened Split

  /** A proposed issuance. Only `isExecuted` ever changes, once, from false
      to true. */
  datatype MintRequest = MintRequest(beneficiary: Address, amount: Uint256, isExecuted: bool)

  /** `self` is the contract's own address; `wallet` is the system wallet;
      `deputation` is the holder pool (the Deputation contract's address);
      `initialSupply` is the INITIAL_SUPPLY constant that preMint issues. */
  datatype State = State(
    self: Address,
    roles: Roles,
    ledger: Ledger,
    mintRequests: seq<MintRequest>,
    preMinted: bool,
    rates: Rates,
    wallet: Address,
    deputation: Address,
    paused: bool,
    delegatedFrom: Address,
    initialSupply: Uint256)

  /** The outcome of a successful call: the new state and the events it
      emitted, in order. */
  datatype Step = Step(next: State, log: seq<Event>)

  /** Deployment by `owner` with the system wallet and pool addresses:
      empty ledger, no roles, default rates, not paused, no delegate. */
  function Init(self: Address, owner: Address, wallet: Address, deputation: Address, initialSupply: Uint256): (s: State)
    ensures s.ledger.totalSupply == 0 && s.ledger.holders == [] && s.mintRequests == []
    ensures forall a :: BalanceOf(s.ledger, a) == 0
    ensures forall o, sp :: AllowanceOf(s.ledger, o, sp) == 0
    ensures s.roles.owner == owner && s.roles.admins == {} && s.roles.operators == {}
    ensures !s.paused && !s.preMinted && s.delegatedFrom == Null
    ensures s.rates == DefaultRates && HoldersRate(s.rates) == 20
  {
    State(self, InitRoles(owner), Empty, [], false, DefaultRates, wallet, deputation, false, Null, initialSupply)
  }

  /** The contract invariant: a valid ledger, configured payees, and
      well-formed mint requests (real beneficiary, positive amount). */
  ghost predicate Valid(s: State) {
    && BalanceLedger.Consistent(s.ledger)
    && s.wallet != Null
    && s.deputation != Null
    && (forall i :: 0 <= i < |s.mintRequests| ==>
          s.mintRequests[i].beneficiary != Null && s.mintRequests[i].amount > 0)
  }

  lemma InitValid(self: Address, owner: Address, wallet: Address, deputation: Address, initialSupply: Uint256)
    requires wallet != Null && deputation != Null
    ensures Valid(Init(self, owner, wallet, deputation, initialSupply))
  {
    EmptyConsistent();
  }

  /** Queries. None is restricted: any caller may read. */

  function TotalSupply(s: State): nat {
    s.ledger.totalSupply
  }

  function Balance(s: State, a: Address): nat {
    BalanceOf(s.ledger, a)
  }

  function Allowance(s: State, owner: Address, spender: Address): nat {
    AllowanceOf(s.ledger, owner, spender)
  }

  function MintRequestCount(s: State): nat {
    |s.mintRequests|
  }

  /** getMintRequest: the request with that id, or NotFound past the end. */
  function GetMintRequest(s: State, id: nat): (r: Result<MintRequest>)
    ensures r.Ok? <==> id < MintRequestCount(s)
    ensures r.Ok? ==> r.value == s.mintRequests[id]
    ensures r.Err? ==> r.error == NotFound
  {
    if id < |s.mintRequests| then Ok(s.mintRequests[id]) else Err(NotFound)
  }

  /** getTheNumberOfHolders. */
  function HolderCount(s: State): nat {
    |s.ledger.holders|
  }

  /** getHolder: the holder at that position of first-credit order, or
      IndexOutOfRange past the end. */
  function GetHolder(s: State, index: nat): (r: Result<Address>)
    ensures r.Ok? <==> index < HolderCount(s)
    ensures r.Ok? ==> r.value == s.ledger.holders[index]
    ensures r.Err? ==> r.error == IndexOutOfRange
  {
    if index < |s.ledger.holders| then Ok(s.ledger.holders[index]) else Err(IndexOutOfRange)
  }

  /** The registry of `t` extends the registry of `s`: nothing removed,
      nothing reordered. */
  predicate HoldersExtend(s: State, t: State) {
    s.ledger.holders <= t.ledger.holders
  }

  /** The mint-request log of `t` extends that of `s`: existing requests keep
      their beneficiary and amount, and an executed request stays executed. */
  predicate RequestsExtend(s: State, t: State) {
    && |s.mintRequests| <= |t.mintRequests|
    && (forall i :: 0 <= i < |s.mintRequests| ==>
          && t.mintRequests[i].beneficiary == s.mintRequests[i].beneficiary
          && t.mintRequests[i].amount == s.mintRequests[i].amount
          && (s.mintRequests[i].isExecuted ==> t.mintRequests[i].isExecuted))
  }
}
