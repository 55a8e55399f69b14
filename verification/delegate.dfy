/** The delegation bridge: the one address stored as `delegatedFrom` may
    call the delegate* variants of the ledger operations, naming explicitly
    the address on whose behalf it acts. Anyone else is refused. A Null
    `delegatedFrom` (the initial value) disables the bridge. */
module Delegate {
  import opened Base
  import opened BalanceLedger
  import opened Access
  import opened Split
  import opened TokenState
  import opened StandardToken
  import opened MintWorkflow

  predicate IsDelegate(s: State, caller: Address) {
    caller == s.delegatedFrom && caller != Null
  }

  /** delegateTotalSupply(). */
  function DelegateTotalSupply(s: State, caller: Address): (r: Result<nat>)
    ensures r.Ok? <==> IsDelegate(s, caller)
    ensures r.Err? ==> r.error == Unauthorized
    ensures r.Ok? ==> r.value == s.ledger.totalSupply
  {
    if !IsDelegate(s, caller) then Err(Unauthorized) else Ok(TotalSupply(s))
  }

  /** delegateBalanceOf(who). */
  function DelegateBalanceOf(s: State, caller: Address, who: Address): (r: Result<nat>)
    ensures r.Ok? <==> IsDelegate(s, caller)
    ensures r.Err? ==> r.error == Unauthorized
    ensures r.Ok? ==> r.value == BalanceOf(s.ledger, who)
  {
    if !IsDelegate(s, caller) then Err(Unauthorized) else Ok(Balance(s, who))
  }

  /** delegateAllowance(owner, spender). */
  function DelegateAllowance(s: State, caller: Address, owner: Address, spender: Address): (r: Result<nat>)
    ensures r.Ok? <==> IsDelegate(s, caller)
    ensures r.Err? ==> r.error == Unauthorized
    ensures r.Ok? ==> r.value == AllowanceOf(s.ledger, owner, spender)
  {
    if !IsDelegate(s, caller) then Err(Unauthorized) else Ok(Allowance(s, owner, spender))
  }

  /** delegateTransfer(to, v, origin): a transfer as if `origin` sent it. */
  function DelegateTransfer(s: State, caller: Address, to: Address, v: Uint256, origin: Address): (r: Result<Step>)
    ensures !IsDelegate(s, caller) ==> r == Err(Unauthorized)
    ensures IsDelegate(s, caller) ==> r == Transfer(s, origin, to, v)
    ensures r.Ok? && to != Null && to != origin ==>
              && Balance(r.value.next, origin) == Balance(s, origin) - v
              && Balance(r.value.next, to) == Balance(s, to) + v
  {
    if !IsDelegate(s, caller) then Err(Unauthorized) else Transfer(s, origin, to, v)
  }

  /** delegateTransferFrom(from, to, v, spender): a transferFrom as if
      `spender` sent it, so it spends `spender`'s allowance. */
  function DelegateTransferFrom(s: State, caller: Address, from: Address, to: Address, v: Uint256,
                                spender: Address): (r: Result<Step>)
    ensures !IsDelegate(s, caller) ==> r == Err(Unauthorized)
    ensures IsDelegate(s, caller) ==> r == TransferFrom(s, spender, from, to, v)
    ensures r.Ok? ==> v <= Allowance(s, from, spender)
                      && Allowance(r.value.next, from, spender) == Allowance(s, from, spender) - v
    ensures r.Ok? && to != from ==>
              && Balance(r.value.next, from) == Balance(s, from) - v
              && Balance(r.value.next, to) == Balance(s, to) + v
  {
    if !IsDelegate(s, caller) then Err(Unauthorized) else TransferFrom(s, spender, from, to, v)
  }

  /** delegateApprove(spender, v, origin). */
  function DelegateApprove(s: State, caller: Address, spender: Address, v: Uint256, origin: Address): (r: Result<Step>)
    ensures !IsDelegate(s, caller) ==> r == Err(Unauthorized)
    ensures IsDelegate(s, caller) ==> r == Approve(s, origin, spender, v)
    ensures r.Ok? ==> Allowance(r.value.next, origin, spender) == v
  {
    if !IsDelegate(s, caller) then Err(Unauthorized) else Approve(s, origin, spender, v)
  }

  /** delegateIncreaseApproval(spender, v, origin). */
  function DelegateIncreaseApproval(s: State, caller: Address, spender: Address, v: Uint256,
                                    origin: Address): (r: Result<Step>)
    ensures !IsDelegate(s, caller) ==> r == Err(Unauthorized)
    ensures IsDelegate(s, caller) ==> r == IncreaseApproval(s, origin, spender, v)
    ensures r.Ok? ==> Allowance(r.value.next, origin, spender) == Allowance(s, origin, spender) + v
  {
    if !IsDelegate(s, caller) then Err(Unauthorized) else IncreaseApproval(s, origin, spender, v)
  }

  /** delegateDecreaseApproval(spender, v, origin). */
  function DelegateDecreaseApproval(s: State, caller: Address, spender: Address, v: Uint256,
                                    origin: Address): (r: Result<Step>)
    ensures !IsDelegate(s, caller) ==> r == Err(Unauthorized)
    ensures IsDelegate(s, caller) ==> r == DecreaseApproval(s, origin, spender, v)
    ensures r.Ok? ==> Allowance(r.value.next, origin, spender)
                      == if v > Allowance(s, origin, spender) then 0 else Allowance(s, origin, spender) - v
  {
    if !IsDelegate(s, caller) then Err(Unauthorized) else DecreaseApproval(s, origin, spender, v)
  }

  /** delegateBurn(from, v, note): a burn of `from`'s tokens. */
  function DelegateBurn(s: State, caller: Address, from: Address, v: Uint256, note: string): (r: Result<Step>)
    ensures !IsDelegate(s, caller) ==> r == Err(Unauthorized)
    ensures IsDelegate(s, caller) ==> r == Burn(s, from, v, note)
    ensures r.Ok? ==> && Balance(r.value.next, from) == Balance(s, from) - v
                      && TotalSupply(r.value.next) == TotalSupply(s) - v
                      && r.value.log == [Burned(from, v, note)]
  {
    if !IsDelegate(s, caller) then Err(Unauthorized) else Burn(s, from, v, note)
  }

  /** The bridge is closed to everybody until the owner names a delegate. */
  lemma FreshBridgeClosed(self: Address, owner: Address, wallet: Address, deputation: Address,
                          initialSupply: Uint256, caller: Address)
    ensures DelegateTotalSupply(Init(self, owner, wallet, deputation, initialSupply), caller) == Err(Unauthorized)
  {
  }

  /** The supply the delegate reads grows by the whole confirmed amount,
      not per share; on a fresh ledger one confirmed mint of 100 reads 100. */
  lemma DelegateSupplyAfterConfirm(s: State, admin: Address, id: nat)
    requires IsAdmin(s.roles, admin) && id < MintRequestCount(s) && !s.mintRequests[id].isExecuted
    requires TotalSupply(s) + s.mintRequests[id].amount < TWO_256
    requires s.delegatedFrom != Null
    ensures DelegateTotalSupply(ConfirmMintRequest(s, admin, id).value.next, s.delegatedFrom)
            == Ok(TotalSupply(s) + s.mintRequests[id].amount)
    ensures TotalSupply(s) == 0 && s.mintRequests[id].amount == 100 ==>
              DelegateTotalSupply(ConfirmMintRequest(s, admin, id).value.next, s.delegatedFrom) == Ok(100)
  {
  }

  /** At the default rates a confirmed mint of 100 to a writer holding
      nothing, who is neither the wallet nor the pool, leaves the writer
      with 70, as the delegate reads it. */
  lemma DelegateReadsWriterShare(s: State, admin: Address, id: nat)
    requires ConfirmMintRequest(s, admin, id).Ok?
    requires IsDelegate(s, s.delegatedFrom) && s.rates == DefaultRates
    requires s.mintRequests[id].amount == 100
    requires Balance(s, s.mintRequests[id].beneficiary) == 0
    requires s.mintRequests[id].beneficiary != s.wallet && s.mintRequests[id].beneficiary != s.deputation
    ensures DelegateBalanceOf(ConfirmMintRequest(s, admin, id).value.next, s.delegatedFrom,
                              s.mintRequests[id].beneficiary) == Ok(70)
  {
    assert SplitAmount(100, DefaultRates).writer == 70;
  }

  lemma DelegateTransferKeepsValid(s: State, caller: Address, to: Address, v: Uint256, origin: Address)
    requires Valid(s) && DelegateTransfer(s, caller, to, v, origin).Ok?
    ensures Valid(DelegateTransfer(s, caller, to, v, origin).value.next)
  {
    TransferKeepsValid(s, origin, to, v);
  }

  lemma DelegateTransferFromKeepsValid(s: State, caller: Address, from: Address, to: Address, v: Uint256,
                                       spender: Address)
    requires Valid(s) && DelegateTransferFrom(s, caller, from, to, v, spender).Ok?
    ensures Valid(DelegateTransferFrom(s, caller, from, to, v, spender).value.next)
  {
    TransferFromKeepsValid(s, spender, from, to, v);
  }

  lemma DelegateBurnKeepsValid(s: State, caller: Address, from: Address, v: Uint256, note: string)
    requires Valid(s) && DelegateBurn(s, caller, from, v, note).Ok?
    ensures Valid(DelegateBurn(s, caller, from, v, note).value.next)
  {
    BurnKeepsValid(s, from, v, note);
  }
}
