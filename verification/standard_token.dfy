/** The value-moving and allowance operations of the token (the standard,
    pausable and withdrawal layers): transfer, transferFrom, approve,
    increase/decreaseApproval and burn. Every one of them is refused while
    the token is paused. */
module StandardToken {
  import opened Base
  import opened BalanceLedger
  import opened TokenState

  /** burn(value, note): the caller destroys part of its own balance and the
      supply shrinks by the same amount. The checked subtraction on the
      supply refuses like the one on the balance, with InsufficientFunds; a
      valid state never reaches it, since no balance exceeds the supply. */
  function Burn(s: State, caller: Address, v: Uint256, note: string): (r: Result<Step>)
    ensures r.Ok? <==> !s.paused && v <= Balance(s, caller) && v <= TotalSupply(s)
    ensures r.Err? ==> r.error == (if s.paused then ContractPaused else InsufficientFunds)
    ensures r.Ok? ==> Balance(r.value.next, caller) + v == Balance(s, caller)
    ensures r.Ok? ==> TotalSupply(r.value.next) + v == TotalSupply(s)
    ensures r.Ok? ==> forall a :: a != caller ==> Balance(r.value.next, a) == Balance(s, a)
    ensures r.Ok? ==> r.value.next.ledger.holders == s.ledger.holders
    ensures r.Ok? ==> r.value.next.ledger.allowances == s.ledger.allowances
    ensures r.Ok? ==> r.value.next == s.(ledger := r.value.next.ledger)
    ensures r.Ok? ==> r.value.log == [Burned(caller, v, note)]
  {
    if s.paused then Err(ContractPaused)
    else if v > Balance(s, caller) || v > TotalSupply(s) then Err(InsufficientFunds)
    else Ok(Step(s.(ledger := Destroy(s.ledger, caller, v)), [Burned(caller, v, note)]))
  }

  /** transfer(to, value): move value from the caller to `to`, registering a
      new holder. A transfer to the null address is a burn with an empty
      note (self-service withdrawal). */
  function Transfer(s: State, caller: Address, to: Address, v: Uint256): (r: Result<Step>)
    ensures to == Null ==> r == Burn(s, caller, v, "")
    ensures to != Null ==> (r.Ok? <==> !s.paused && v <= Balance(s, caller))
    ensures to != Null && r.Err? ==> r.error == (if s.paused then ContractPaused else InsufficientFunds)
    ensures r.Ok? && to != Null && to != caller ==>
              && Balance(r.value.next, caller) + v == Balance(s, caller)
              && Balance(r.value.next, to) == Balance(s, to) + v
    ensures r.Ok? && to == caller && to != Null ==> Balance(r.value.next, caller) == Balance(s, caller)
    ensures r.Ok? ==> forall a :: a != caller && a != to ==> Balance(r.value.next, a) == Balance(s, a)
    ensures r.Ok? && to != Null ==> TotalSupply(r.value.next) == TotalSupply(s)
    ensures r.Ok? && to != Null ==> r.value.next.ledger.holders == Register(s.ledger.holders, to, v)
    ensures r.Ok? ==> r.value.next.ledger.allowances == s.ledger.allowances
    ensures r.Ok? ==> r.value.next == s.(ledger := r.value.next.ledger)
    ensures r.Ok? && to != Null ==> r.value.log == [Transferred(caller, to, v)]
  {
    if to == Null then Burn(s, caller, v, "")
    else if s.paused then Err(ContractPaused)
    else if v > Balance(s, caller) then Err(InsufficientFunds)
    else Ok(Step(s.(ledger := Move(s.ledger, caller, to, v)), [Transferred(caller, to, v)]))
  }

  /** transferFrom(from, to, value) by a spender: spends the allowance
      `from` granted the caller. Unlike transfer, the null address is
      refused as a recipient. */
  function TransferFrom(s: State, caller: Address, from: Address, to: Address, v: Uint256): (r: Result<Step>)
    ensures r.Ok? <==> !s.paused && to != Null && v <= Balance(s, from) && v <= Allowance(s, from, caller)
    ensures r.Err? ==> r.error == (if s.paused then ContractPaused
                                   else if to == Null then InvalidArgument
                                   else if v > Balance(s, from) then InsufficientFunds
                                   else InsufficientAllowance)
    ensures r.Ok? ==> Allowance(r.value.next, from, caller) + v == Allowance(s, from, caller)
    ensures r.Ok? ==> forall o: Address, sp: Address :: (o, sp) != (from, caller) ==>
              Allowance(r.value.next, o, sp) == Allowance(s, o, sp)
    ensures r.Ok? && from != to ==>
              && Balance(r.value.next, from) + v == Balance(s, from)
              && Balance(r.value.next, to) == Balance(s, to) + v
    ensures r.Ok? && from == to ==> Balance(r.value.next, from) == Balance(s, from)
    ensures r.Ok? ==> forall a :: a != from && a != to ==> Balance(r.value.next, a) == Balance(s, a)
    ensures r.Ok? ==> TotalSupply(r.value.next) == TotalSupply(s)
    ensures r.Ok? ==> r.value.next.ledger.holders == Register(s.ledger.holders, to, v)
    ensures r.Ok? ==> r.value.next == s.(ledger := r.value.next.ledger)
    ensures r.Ok? ==> r.value.log == [Transferred(from, to, v)]
  {
    if s.paused then Err(ContractPaused)
    else if to == Null then Err(InvalidArgument)
    else if v > Balance(s, from) then Err(InsufficientFunds)
    else if v > Allowance(s, from, caller) then Err(InsufficientAllowance)
    else
      var spent := SetAllowance(s.ledger, from, caller, Allowance(s, from, caller) - v);
      Ok(Step(s.(ledger := Move(spent, from, to, v)), [Transferred(from, to, v)]))
  }

  /** approve(spender, value): the allowance becomes exactly `value`. */
  function Approve(s: State, caller: Address, spender: Address, v: Uint256): (r: Result<Step>)
    ensures r.Ok? <==> !s.paused
    ensures r.Err? ==> r.error == ContractPaused
    ensures r.Ok? ==> Allowance(r.value.next, caller, spender) == v
    ensures r.Ok? ==> forall o: Address, sp: Address :: (o, sp) != (caller, spender) ==>
              Allowance(r.value.next, o, sp) == Allowance(s, o, sp)
    ensures r.Ok? ==> r.value.next.ledger.balances == s.ledger.balances
    ensures r.Ok? ==> r.value.next.ledger.holders == s.ledger.holders
    ensures r.Ok? ==> r.value.next == s.(ledger := r.value.next.ledger)
    ensures r.Ok? ==> r.value.log == [Approved(caller, spender, v)]
  {
    if s.paused then Err(ContractPaused)
    else Ok(Step(s.(ledger := SetAllowance(s.ledger, caller, spender, v)), [Approved(caller, spender, v)]))
  }

  /** increaseApproval(spender, added): the allowance grows by `added`; a
      sum past the 256-bit word is refused by the checked addition. The
      Approval event carries the new allowance. */
  function IncreaseApproval(s: State, caller: Address, spender: Address, v: Uint256): (r: Result<Step>)
    ensures r.Ok? <==> !s.paused && Allowance(s, caller, spender) + v < TWO_256
    ensures r.Err? ==> r.error == (if s.paused then ContractPaused else Overflow)
    ensures r.Ok? ==> Allowance(r.value.next, caller, spender) == Allowance(s, caller, spender) + v
    ensures r.Ok? ==> forall o: Address, sp: Address :: (o, sp) != (caller, spender) ==>
              Allowance(r.value.next, o, sp) == Allowance(s, o, sp)
    ensures r.Ok? ==> r.value.next.ledger.balances == s.ledger.balances
    ensures r.Ok? ==> r.value.next.ledger.holders == s.ledger.holders
    ensures r.Ok? ==> r.value.next == s.(ledger := r.value.next.ledger)
    ensures r.Ok? ==> r.value.log == [Approved(caller, spender, Allowance(s, caller, spender) + v)]
  {
    if s.paused then Err(ContractPaused)
    else
      var raised := Allowance(s, caller, spender) + v;
      if raised >= TWO_256 then Err(Overflow)
      else Ok(Step(s.(ledger := SetAllowance(s.ledger, caller, spender, raised)),
                   [Approved(caller, spender, raised)]))
  }

  /** decreaseApproval(spender, subtracted): the allowance shrinks by
      `subtracted`, and becomes 0 rather than going negative. */
  function DecreaseApproval(s: State, caller: Address, spender: Address, v: Uint256): (r: Result<Step>)
    ensures r.Ok? <==> !s.paused
    ensures r.Err? ==> r.error == ContractPaused
    ensures r.Ok? ==> Allowance(r.value.next, caller, spender) <= Allowance(s, caller, spender)
    ensures r.Ok? ==> Allowance(r.value.next, caller, spender) + v >= Allowance(s, caller, spender)
    ensures r.Ok? ==> Allowance(r.value.next, caller, spender) == 0
                      || Allowance(r.value.next, caller, spender) + v == Allowance(s, caller, spender)
    ensures r.Ok? ==> forall o: Address, sp: Address :: (o, sp) != (caller, spender) ==>
              Allowance(r.value.next, o, sp) == Allowance(s, o, sp)
    ensures r.Ok? ==> r.value.next.ledger.balances == s.ledger.balances
    ensures r.Ok? ==> r.value.next.ledger.holders == s.ledger.holders
    ensures r.Ok? ==> r.value.next == s.(ledger := r.value.next.ledger)
    ensures r.Ok? ==> r.value.log == [Approved(caller, spender, Allowance(r.value.next, caller, spender))]
  {
    if s.paused then Err(ContractPaused)
    else
      var old_ := Allowance(s, caller, spender);
      var lowered := if v > old_ then 0 else old_ - v;
      Ok(Step(s.(ledger := SetAllowance(s.ledger, caller, spender, lowered)),
              [Approved(caller, spender, lowered)]))
  }

  /** While paused, every value-moving and allowance operation is refused
      with ContractPaused. */
  lemma PausedBlocksValueMoves(s: State, caller: Address, from: Address, to: Address, v: Uint256, note: string)
    requires s.paused
    ensures Transfer(s, caller, to, v) == Err(ContractPaused)
    ensures TransferFrom(s, caller, from, to, v) == Err(ContractPaused)
    ensures Approve(s, caller, to, v) == Err(ContractPaused)
    ensures IncreaseApproval(s, caller, to, v) == Err(ContractPaused)
    ensures DecreaseApproval(s, caller, to, v) == Err(ContractPaused)
    ensures Burn(s, caller, v, note) == Err(ContractPaused)
  {
  }

  /** A decrease larger than the allowance leaves it at 0. */
  lemma DecreaseApprovalFloorsAtZero(s: State, caller: Address, spender: Address, v: Uint256)
    requires !s.paused
    requires v >= Allowance(s, caller, spender)
    ensures Allowance(DecreaseApproval(s, caller, spender, v).value.next, caller, spender) == 0
  {
  }

  /** approve then increaseApproval by the same amount doubles it. */
  lemma ApproveThenIncrease(s: State, caller: Address, spender: Address, v: Uint256)
    requires !s.paused
    requires v + v < TWO_256
    ensures IncreaseApproval(Approve(s, caller, spender, v).value.next, caller, spender, v).Ok?
    ensures Allowance(IncreaseApproval(Approve(s, caller, spender, v).value.next, caller, spender, v).value.next,
                      caller, spender) == v + v
  {
  }

  /** A transfer to an address not yet registered appends it at the end;
      a transfer to a registered holder leaves count and order alone. */
  lemma TransferRegistry(s: State, caller: Address, to: Address, v: Uint256)
    requires to != Null
    requires Transfer(s, caller, to, v).Ok?
    ensures var t := Transfer(s, caller, to, v).value.next;
            && (to !in s.ledger.holders && v > 0 ==>
                  HolderCount(t) == HolderCount(s) + 1 && GetHolder(t, HolderCount(s)) == Ok(to))
            && (to in s.ledger.holders ==> t.ledger.holders == s.ledger.holders)
            && HoldersExtend(s, t)
  {
  }

  /** The same for transferFrom. */
  lemma TransferFromRegistry(s: State, caller: Address, from: Address, to: Address, v: Uint256)
    requires TransferFrom(s, caller, from, to, v).Ok?
    ensures var t := TransferFrom(s, caller, from, to, v).value.next;
            && (to !in s.ledger.holders && v > 0 ==>
                  HolderCount(t) == HolderCount(s) + 1 && GetHolder(t, HolderCount(s)) == Ok(to))
            && (to in s.ledger.holders ==> t.ledger.holders == s.ledger.holders)
            && HoldersExtend(s, t)
  {
  }

  lemma BurnKeepsValid(s: State, caller: Address, v: Uint256, note: string)
    requires Valid(s)
    requires Burn(s, caller, v, note).Ok?
    ensures Valid(Burn(s, caller, v, note).value.next)
  {
    DestroyKeepsConsistent(s.ledger, caller, v);
  }

  lemma TransferKeepsValid(s: State, caller: Address, to: Address, v: Uint256)
    requires Valid(s)
    requires Transfer(s, caller, to, v).Ok?
    ensures Valid(Transfer(s, caller, to, v).value.next)
    ensures HoldersExtend(s, Transfer(s, caller, to, v).value.next)
  {
    if to == Null {
      BurnKeepsValid(s, caller, v, "");
    } else {
      MoveKeepsConsistent(s.ledger, caller, to, v);
    }
  }

  lemma TransferFromKeepsValid(s: State, caller: Address, from: Address, to: Address, v: Uint256)
    requires Valid(s)
    requires TransferFrom(s, caller, from, to, v).Ok?
    ensures Valid(TransferFrom(s, caller, from, to, v).value.next)
  {
    var spent := SetAllowance(s.ledger, from, caller, Allowance(s, from, caller) - v);
    assert Allowance(s, from, caller) < TWO_256;
    SetAllowanceKeepsConsistent(s.ledger, from, caller, Allowance(s, from, caller) - v);
    assert BalanceOf(spent, from) == Balance(s, from);
    MoveKeepsConsistent(spent, from, to, v);
  }

  lemma ApproveKeepsValid(s: State, caller: Address, spender: Address, v: Uint256)
    requires Valid(s)
    requires Approve(s, caller, spender, v).Ok?
    ensures Valid(Approve(s, caller, spender, v).value.next)
  {
    SetAllowanceKeepsConsistent(s.ledger, caller, spender, v);
  }

  lemma IncreaseApprovalKeepsValid(s: State, caller: Address, spender: Address, v: Uint256)
    requires Valid(s)
    requires IncreaseApproval(s, caller, spender, v).Ok?
    ensures Valid(IncreaseApproval(s, caller, spender, v).value.next)
  {
    SetAllowanceKeepsConsistent(s.ledger, caller, spender, Allowance(s, caller, spender) + v);
  }

  lemma DecreaseApprovalKeepsValid(s: State, caller: Address, spender: Address, v: Uint256)
    requires Valid(s)
    requires DecreaseApproval(s, caller, spender, v).Ok?
    ensures Valid(DecreaseApproval(s, caller, spender, v).value.next)
  {
    var old_ := Allowance(s, caller, spender);
    assert old_ < TWO_256;
    SetAllowanceKeepsConsistent(s.ledger, caller, spender, if v > old_ then 0 else old_ - v);
  }
}
