/** reclaimToken: a token contract that finds itself holding a balance on
    some other token's ledger sweeps all of it to its own owner. The foreign
    ledger is a second token state; the sweep is an ordinary transfer on it,
    sent by the reclaiming contract. */
module Reclaim {
  import opened Base
  import opened BalanceLedger
  import opened TokenState
  import opened StandardToken

  /** reclaimToken(foreignToken) called on `holder`: owner only; transfers
      `holder`'s whole foreign balance to `holder`'s owner. Balances on a
      ledger are 256-bit words, which the requires states. */
  function ReclaimToken(holder: State, caller: Address, foreign: State): (r: Result<Step>)
    requires Balance(foreign, holder.self) < TWO_256
    ensures caller != holder.roles.owner ==> r == Err(Unauthorized)
    ensures holder.roles.owner != Null ==> (r.Ok? <==> caller == holder.roles.owner && !foreign.paused)
    ensures r.Ok? && holder.roles.owner != Null && holder.roles.owner != holder.self ==>
              && Balance(r.value.next, holder.roles.owner)
                 == Balance(foreign, holder.roles.owner) + Balance(foreign, holder.self)
              && Balance(r.value.next, holder.self) == 0
              && TotalSupply(r.value.next) == TotalSupply(foreign)
    ensures r.Ok? ==> forall a :: a != holder.self && a != holder.roles.owner ==>
              Balance(r.value.next, a) == Balance(foreign, a)
    ensures r.Ok? && holder.roles.owner != Null ==>
              r.value.log == [Transferred(holder.self, holder.roles.owner, Balance(foreign, holder.self))]
  {
    if caller != holder.roles.owner then Err(Unauthorized)
    else Transfer(foreign, holder.self, holder.roles.owner, Balance(foreign, holder.self))
  }

  /** Reclaiming twice sweeps nothing the second time: the holder's foreign
      balance is already zero. */
  lemma ReclaimTwiceMovesNothing(holder: State, caller: Address, foreign: State)
    requires Balance(foreign, holder.self) < TWO_256
    requires ReclaimToken(holder, caller, foreign).Ok?
    requires holder.roles.owner != Null && holder.roles.owner != holder.self
    ensures var once := ReclaimToken(holder, caller, foreign).value.next;
            && ReclaimToken(holder, caller, once).Ok?
            && (forall a :: Balance(ReclaimToken(holder, caller, once).value.next, a) == Balance(once, a))
  {
  }

  lemma ReclaimKeepsValid(holder: State, caller: Address, foreign: State)
    requires Valid(foreign) && Balance(foreign, holder.self) < TWO_256
    requires ReclaimToken(holder, caller, foreign).Ok?
    ensures Valid(ReclaimToken(holder, caller, foreign).value.next)
  {
    TransferKeepsValid(foreign, holder.self, holder.roles.owner, Balance(foreign, holder.self));
  }
}
