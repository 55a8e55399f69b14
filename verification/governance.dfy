/** Administration of the token: paid rates, payee addresses, the pause
    switch, the delegate address, and the role and ownership calls lifted
    from the role registry to the token state. None of these is gated by
    the pause flag, and none touches the ledger. */
module Governance {
  import opened Base
  import opened BalanceLedger
  import opened Access
  import opened Split
  import opened TokenState
  import opened StandardToken
  import opened MintWorkflow

  /** changePaidRates(system, writer): admin only; the holder rate follows
      as what is left of 100. */
  function ChangePaidRates(s: State, caller: Address, system: Uint256, writer: Uint256): (r: Result<Step>)
    ensures r.Ok? <==> IsAdmin(s.roles, caller) && system < 100 && writer < 100 && system + writer <= 100
    ensures r.Err? ==> r.error == (if !IsAdmin(s.roles, caller) then Unauthorized else InvalidArgument)
    ensures r.Ok? ==> && r.value.next.rates.system == system
                      && r.value.next.rates.writer == writer
                      && HoldersRate(r.value.next.rates) == 100 - system - writer
    ensures r.Ok? ==> r.value.next == s.(rates := r.value.next.rates)
    ensures r.Ok? ==> r.value.log == [PaidRatesChanged(system, writer)]
  {
    if !IsAdmin(s.roles, caller) then Err(Unauthorized)
    else
      var rates :- CheckRates(system, writer);
      Ok(Step(s.(rates := rates), [PaidRatesChanged(system, writer)]))
  }

  /** changeWallet(addr): admin only; the system wallet cannot be Null. */
  function ChangeWallet(s: State, caller: Address, addr: Address): (r: Result<Step>)
    ensures r.Ok? <==> IsAdmin(s.roles, caller) && addr != Null
    ensures r.Err? ==> r.error == (if !IsAdmin(s.roles, caller) then Unauthorized else InvalidArgument)
    ensures r.Ok? ==> r.value.next == s.(wallet := addr)
    ensures r.Ok? ==> r.value.log == [WalletChanged(addr)]
  {
    if !IsAdmin(s.roles, caller) then Err(Unauthorized)
    else if addr == Null then Err(InvalidArgument)
    else Ok(Step(s.(wallet := addr), [WalletChanged(addr)]))
  }

  /** changeDeputation(addr): admin only; the holder pool cannot be Null. */
  function ChangeDeputation(s: State, caller: Address, addr: Address): (r: Result<Step>)
    ensures r.Ok? <==> IsAdmin(s.roles, caller) && addr != Null
    ensures r.Err? ==> r.error == (if !IsAdmin(s.roles, caller) then Unauthorized else InvalidArgument)
    ensures r.Ok? ==> r.value.next == s.(deputation := addr)
    ensures r.Ok? ==> r.value.log == [DeputationChanged(addr)]
  {
    if !IsAdmin(s.roles, caller) then Err(Unauthorized)
    else if addr == Null then Err(InvalidArgument)
    else Ok(Step(s.(deputation := addr), [DeputationChanged(addr)]))
  }

  /** pause(): owner only, and only from the active state. */
  function Pause(s: State, caller: Address): (r: Result<Step>)
    ensures r.Ok? <==> caller == s.roles.owner && !s.paused
    ensures r.Err? ==> r.error == (if caller != s.roles.owner then Unauthorized else InvalidStateTransition)
    ensures r.Ok? ==> r.value.next.paused && r.value.next == s.(paused := true)
    ensures r.Ok? ==> r.value.log == [PauseSet]
  {
    if caller != s.roles.owner then Err(Unauthorized)
    else if s.paused then Err(InvalidStateTransition)
    else Ok(Step(s.(paused := true), [PauseSet]))
  }

  /** unpause(): owner only, and only from the paused state. */
  function Unpause(s: State, caller: Address): (r: Result<Step>)
    ensures r.Ok? <==> caller == s.roles.owner && s.paused
    ensures r.Err? ==> r.error == (if caller != s.roles.owner then Unauthorized else InvalidStateTransition)
    ensures r.Ok? ==> !r.value.next.paused && r.value.next == s.(paused := false)
    ensures r.Ok? ==> r.value.log == [PauseLifted]
  {
    if caller != s.roles.owner then Err(Unauthorized)
    else if !s.paused then Err(InvalidStateTransition)
    else Ok(Step(s.(paused := false), [PauseLifted]))
  }

  /** setDelegatedFrom(addr): owner only; replaces the delegate
      unconditionally. */
  function SetDelegatedFrom(s: State, caller: Address, addr: Address): (r: Result<Step>)
    ensures r.Ok? <==> caller == s.roles.owner
    ensures r.Err? ==> r.error == Unauthorized
    ensures r.Ok? ==> r.value.next == s.(delegatedFrom := addr)
    ensures r.Ok? ==> r.value.log == [DelegatedFromSet(addr)]
  {
    if caller != s.roles.owner then Err(Unauthorized)
    else Ok(Step(s.(delegatedFrom := addr), [DelegatedFromSet(addr)]))
  }

  /** addAdmin / addOperator (single or batch) on the token. */
  function GrantRole(s: State, caller: Address, role: Role, addrs: seq<Address>): (r: Result<Step>)
    ensures r.Ok? <==> caller == s.roles.owner
    ensures r.Err? ==> r.error == Unauthorized
    ensures r.Ok? ==> forall a :: a in Members(r.value.next.roles, role) <==> a in Members(s.roles, role) || a in addrs
    ensures r.Ok? ==> Members(r.value.next.roles, Other(role)) == Members(s.roles, Other(role))
    ensures r.Ok? ==> r.value.next == s.(roles := r.value.next.roles)
  {
    var roles :- Grant(s.roles, caller, role, addrs);
    Ok(Step(s.(roles := roles), []))
  }

  /** removeAdmin / removeOperator (single or batch) on the token. */
  function RevokeRole(s: State, caller: Address, role: Role, addrs: seq<Address>): (r: Result<Step>)
    ensures r.Ok? <==> caller == s.roles.owner
    ensures r.Err? ==> r.error == Unauthorized
    ensures r.Ok? ==> forall a :: a in Members(r.value.next.roles, role) <==> a in Members(s.roles, role) && a !in addrs
    ensures r.Ok? ==> Members(r.value.next.roles, Other(role)) == Members(s.roles, Other(role))
    ensures r.Ok? ==> r.value.next == s.(roles := r.value.next.roles)
  {
    var roles :- Revoke(s.roles, caller, role, addrs);
    Ok(Step(s.(roles := roles), []))
  }

  /** transferOwnership(newOwner) on the token: nominates, never hands over
      directly; the token's own address cannot be nominated. */
  function NominateOwner(s: State, caller: Address, newOwner: Address): (r: Result<Step>)
    ensures r.Ok? <==> caller == s.roles.owner && newOwner != s.self && newOwner != s.roles.owner
    ensures r.Err? ==> r.error == (if caller != s.roles.owner then Unauthorized else InvalidArgument)
    ensures r.Ok? ==> r.value.next == s.(roles := s.roles.(pendingOwner := newOwner))
  {
    var roles :- TransferOwnership(s.roles, s.self, caller, newOwner);
    Ok(Step(s.(roles := roles), []))
  }

  /** claimOwnership() on the token. */
  function ClaimTokenOwnership(s: State, caller: Address): (r: Result<Step>)
    ensures r.Ok? <==> caller == s.roles.pendingOwner && caller != Null
    ensures r.Err? ==> r.error == Unauthorized
    ensures r.Ok? ==> r.value.next.roles.owner == caller && r.value.next.roles.pendingOwner == Null
    ensures r.Ok? ==> r.value.next == s.(roles := r.value.next.roles)
  {
    var roles :- ClaimOwnership(s.roles, caller);
    Ok(Step(s.(roles := roles), []))
  }

  /** Pausing and unpausing are inverse: from either pause state, the two
      calls by the owner in the right order restore the state exactly. */
  lemma PauseRoundTrip(s: State)
    ensures !s.paused ==> Pause(s, s.roles.owner).Ok?
                          && Unpause(Pause(s, s.roles.owner).value.next, s.roles.owner).Ok?
                          && Unpause(Pause(s, s.roles.owner).value.next, s.roles.owner).value.next == s
    ensures s.paused ==> Unpause(s, s.roles.owner).Ok?
                         && Pause(Unpause(s, s.roles.owner).value.next, s.roles.owner).Ok?
                         && Pause(Unpause(s, s.roles.owner).value.next, s.roles.owner).value.next == s
  {
  }

  /** After pause, every value-moving call fails with ContractPaused, while
      submitting and confirming mint requests are judged as before. */
  lemma PauseFreezesTransfers(s: State, owner: Address, caller: Address, from: Address, to: Address,
                              v: Uint256, note: string, id: nat)
    requires Pause(s, owner).Ok?
    ensures var t := Pause(s, owner).value.next;
            && Transfer(t, caller, to, v) == Err(ContractPaused)
            && TransferFrom(t, caller, from, to, v) == Err(ContractPaused)
            && Approve(t, caller, to, v) == Err(ContractPaused)
            && IncreaseApproval(t, caller, to, v) == Err(ContractPaused)
            && DecreaseApproval(t, caller, to, v) == Err(ContractPaused)
            && Burn(t, caller, v, note) == Err(ContractPaused)
            && SubmitMintRequest(t, caller, to, v).Ok? == SubmitMintRequest(s, caller, to, v).Ok?
            && ConfirmMintRequest(t, caller, id).Ok? == ConfirmMintRequest(s, caller, id).Ok?
  {
    PausedBlocksValueMoves(Pause(s, owner).value.next, caller, from, to, v, note);
  }

  /** After unpause the guarded calls are judged on their merits again:
      approvals succeed and a covered transfer to a real address succeeds. */
  lemma UnpauseReenables(s: State, owner: Address, caller: Address, from: Address, to: Address,
                          v: Uint256, note: string)
    requires Unpause(s, owner).Ok?
    ensures var t := Unpause(s, owner).value.next;
            && Approve(t, caller, to, v).Ok?
            && DecreaseApproval(t, caller, to, v).Ok?
            && (Allowance(s, caller, to) + v < TWO_256 ==> IncreaseApproval(t, caller, to, v).Ok?)
            && (to != Null && v <= Balance(s, caller) ==> Transfer(t, caller, to, v).Ok?)
            && (to != Null && v <= Balance(s, from) && v <= Allowance(s, from, caller) ==>
                  TransferFrom(t, caller, from, to, v).Ok?)
            && (v <= Balance(s, caller) && v <= TotalSupply(s) ==> Burn(t, caller, v, note).Ok?)
  {
  }

  /** After changePaidRates(20, 60), confirming a request of 10,000 pays the
      writer 6,000, the pool 2,000 and the system wallet 2,000. */
  lemma ChangedRatesThenConfirm(s: State, admin: Address, confirmer: Address, id: nat, unit: nat)
    requires ChangePaidRates(s, admin, 20, 60).Ok?
    requires id < MintRequestCount(s) && s.mintRequests[id].amount == 10000 * unit
    requires s.mintRequests[id].beneficiary != s.wallet && s.mintRequests[id].beneficiary != s.deputation
    requires s.wallet != s.deputation
    ensures var t := ChangePaidRates(s, admin, 20, 60).value.next;
            var c := ConfirmMintRequest(t, confirmer, id);
            var w := s.mintRequests[id].beneficiary;
            c.Ok? ==> && Balance(c.value.next, w) == Balance(s, w) + 6000 * unit
                      && Balance(c.value.next, s.deputation) == Balance(s, s.deputation) + 2000 * unit
                      && Balance(c.value.next, s.wallet) == Balance(s, s.wallet) + 2000 * unit
  {
    var t := ChangePaidRates(s, admin, 20, 60).value.next;
    assert t.rates == CheckRates(20, 60).value;
    ChangedRatesSplit(unit);
  }

  lemma ChangePaidRatesKeepsValid(s: State, caller: Address, system: Uint256, writer: Uint256)
    requires Valid(s) && ChangePaidRates(s, caller, system, writer).Ok?
    ensures Valid(ChangePaidRates(s, caller, system, writer).value.next)
  {
  }

  lemma ChangeWalletKeepsValid(s: State, caller: Address, addr: Address)
    requires Valid(s) && ChangeWallet(s, caller, addr).Ok?
    ensures Valid(ChangeWallet(s, caller, addr).value.next)
  {
  }

  lemma ChangeDeputationKeepsValid(s: State, caller: Address, addr: Address)
    requires Valid(s) && ChangeDeputation(s, caller, addr).Ok?
    ensures Valid(ChangeDeputation(s, caller, addr).value.next)
  {
  }
}
