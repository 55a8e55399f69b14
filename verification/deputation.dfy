/** The Deputation payout contract. Its own address is the holder pool that
    every mint pays the holder share into; `distribute` pays out of that pool
    to a batch of holders, one ordinary token transfer per pair, in array
    order. A batch is all-or-nothing: if any transfer is refused, nothing of
    the batch happens. */
module Payout {
  import opened Base
  import opened BalanceLedger
  import opened Split
  import opened TokenState
  import opened StandardToken
  import opened MintWorkflow

  /** `self` is the contract's own address (the pool); `token` is the
      ledger it pays out of, Null until setToken. */
  datatype Deputation = Deputation(owner: Address, self: Address, token: Address)

  datatype DeputationStep = DeputationStep(next: Deputation, log: seq<Event>)

  /** Deployment: the deployer owns it and no token is configured. */
  function NewDeputation(owner: Address, self: Address): (d: Deputation)
    ensures d.owner == owner && d.self == self && d.token == Null
  {
    Deputation(owner, self, Null)
  }

  /** setToken(addr): owner only; replaces the ledger reference. */
  function SetToken(d: Deputation, caller: Address, token: Address): (r: Result<DeputationStep>)
    ensures r.Ok? <==> caller == d.owner
    ensures r.Err? ==> r.error == Unauthorized
    ensures r.Ok? ==> r.value.next == d.(token := token)
    ensures r.Ok? ==> r.value.log == [TokenSet(token)]
  {
    if caller != d.owner then Err(Unauthorized)
    else Ok(DeputationStep(d.(token := token), [TokenSet(token)]))
  }

  /** The total of a batch of amounts. */
  function SumSeq(amounts: seq<Uint256>): nat
    decreases |amounts|
  {
    if amounts == [] then 0 else amounts[0] + SumSeq(amounts[1..])
  }

  /** What address `x` is paid by a batch: the sum of the amounts paired
      with it, however often it occurs. */
  function Received(holders: seq<Address>, amounts: seq<Uint256>, x: Address): (n: nat)
    requires |holders| == |amounts|
    ensures n <= SumSeq(amounts)
    ensures x !in holders ==> n == 0
    decreases |holders|
  {
    if holders == [] then 0
    else (if holders[0] == x then amounts[0] else 0) + Received(holders[1..], amounts[1..], x)
  }

  /** The batch's transfers from `pool`, one after the other; the first
      refusal refuses the whole batch. It touches only the ledger, only
      extends the registry, and goes through whenever the token is not
      paused and the pool covers the total. What it pays is PayAllPays. */
  function PayAll(t: State, pool: Address, holders: seq<Address>, amounts: seq<Uint256>): (r: Result<Step>)
    requires |holders| == |amounts|
    ensures r.Ok? ==> r.value.next == t.(ledger := r.value.next.ledger)
    ensures r.Ok? ==> t.ledger.holders <= r.value.next.ledger.holders
    ensures r.Ok? ==> r.value.next.ledger.allowances == t.ledger.allowances
    ensures !t.paused && SumSeq(amounts) <= Balance(t, pool) && Balance(t, pool) <= TotalSupply(t) ==> r.Ok?
    ensures t.paused && holders != [] ==> r == Err(ContractPaused)
    decreases |holders|
  {
    if holders == [] then Ok(Step(t, []))
    else
      var first :- Transfer(t, pool, holders[0], amounts[0]);
      var rest :- PayAll(first.next, pool, holders[1..], amounts[1..]);
      Ok(Step(rest.next, first.log + rest.log))
  }

  /** What a batch pays: each holder other than the pool gains what the
      batch pairs with it, the pool pays the total (less what it pays
      itself), and a pair naming the null address burns its amount. */
  lemma {:induction false} PayAllPays(t: State, pool: Address, holders: seq<Address>, amounts: seq<Uint256>)
    requires |holders| == |amounts| && PayAll(t, pool, holders, amounts).Ok?
    ensures var next := PayAll(t, pool, holders, amounts).value.next;
            && (forall x :: x != pool && x != Null ==>
                  Balance(next, x) == Balance(t, x) + Received(holders, amounts, x))
            && (pool != Null ==>
                  Balance(next, pool) + SumSeq(amounts) == Balance(t, pool) + Received(holders, amounts, pool))
            && TotalSupply(next) + Received(holders, amounts, Null) == TotalSupply(t)
    decreases |holders|
  {
    if holders != [] {
      var first := Transfer(t, pool, holders[0], amounts[0]).value;
      PayAllPays(first.next, pool, holders[1..], amounts[1..]);
    }
  }

  /** distribute(holders, amounts): callable by anyone. Checked before any
      transfer: a ledger is configured, the arrays pair up, and the pool
      covers their total. The event lists the pairs in input order. */
  function Distribute(d: Deputation, t: State, holders: seq<Address>, amounts: seq<Uint256>): (r: Result<Step>)
    ensures d.token == Null ==> r == Err(LedgerNotConfigured)
    ensures d.token != Null && |holders| != |amounts| ==> r == Err(LengthMismatch)
    ensures d.token != Null && |holders| == |amounts| && SumSeq(amounts) > Balance(t, d.self) ==>
              r == Err(InsufficientPoolBalance)
    ensures (&& d.token != Null && !t.paused && |holders| == |amounts|
             && SumSeq(amounts) <= Balance(t, d.self) <= TotalSupply(t)) ==> r.Ok?
    ensures (&& d.token != Null && t.paused && |holders| == |amounts| && holders != []
             && SumSeq(amounts) <= Balance(t, d.self)) ==> r == Err(ContractPaused)
    ensures r.Ok? ==> |holders| == |amounts|
    ensures r.Ok? ==> r.value.next == t.(ledger := r.value.next.ledger)
    ensures r.Ok? ==> t.ledger.holders <= r.value.next.ledger.holders
    ensures r.Ok? ==> r.value.next.ledger.allowances == t.ledger.allowances
    ensures r.Ok? ==> TotalSupply(r.value.next) + Received(holders, amounts, Null) == TotalSupply(t)
    ensures r.Ok? ==> forall x :: x != d.self && x != Null ==>
              Balance(r.value.next, x) == Balance(t, x) + Received(holders, amounts, x)
    ensures r.Ok? && d.self != Null ==>
              Balance(r.value.next, d.self) + SumSeq(amounts) == Balance(t, d.self) + Received(holders, amounts, d.self)
    ensures r.Ok? ==> |r.value.log| >= 1 && r.value.log[|r.value.log| - 1] == FundsDistributed(holders, amounts)
  {
    if d.token == Null then Err(LedgerNotConfigured)
    else if |holders| != |amounts| then Err(LengthMismatch)
    else if SumSeq(amounts) > Balance(t, d.self) then Err(InsufficientPoolBalance)
    else
      var paid :- PayAll(t, d.self, holders, amounts);
      PayAllPays(t, d.self, holders, amounts);
      Ok(Step(paid.next, paid.log + [FundsDistributed(holders, amounts)]))
  }

  /** In a batch of distinct holders, each holder is paid exactly the
      amount paired with it. */
  lemma {:induction false} DistinctHoldersPaidExactly(holders: seq<Address>, amounts: seq<Uint256>, i: nat)
    requires |holders| == |amounts| && i < |holders|
    requires forall j, k :: 0 <= j < k < |holders| ==> holders[j] != holders[k]
    ensures Received(holders, amounts, holders[i]) == amounts[i]
    decreases |holders|
  {
    if i == 0 {
      assert forall j :: 0 <= j < |holders[1..]| ==> holders[1..][j] == holders[j + 1];
      assert holders[0] !in holders[1..];
    } else {
      DistinctHoldersPaidExactly(holders[1..], amounts[1..], i - 1);
    }
  }

  /** The distribution the payout scenario performs: from a pool holding the
      total, distinct fresh holders each end with exactly their amount. */
  lemma DistributePaysEachHolder(d: Deputation, t: State, holders: seq<Address>, amounts: seq<Uint256>, i: nat)
    requires Distribute(d, t, holders, amounts).Ok?
    requires forall j, k :: 0 <= j < k < |holders| ==> holders[j] != holders[k]
    requires d.self != Null && d.self !in holders && Null !in holders
    requires i < |holders| && Balance(t, holders[i]) == 0
    ensures Balance(Distribute(d, t, holders, amounts).value.next, holders[i]) == amounts[i]
    ensures Balance(Distribute(d, t, holders, amounts).value.next, d.self) + SumSeq(amounts) == Balance(t, d.self)
  {
    DistinctHoldersPaidExactly(holders, amounts, i);
  }

  /** One step of a batch: once the first transfer goes through, the batch
      succeeds or fails, and ends, as its remainder does from there. */
  lemma PayAllStep(t: State, pool: Address, holders: seq<Address>, amounts: seq<Uint256>)
    requires |holders| == |amounts| && holders != []
    requires Transfer(t, pool, holders[0], amounts[0]).Ok?
    ensures var rest := PayAll(Transfer(t, pool, holders[0], amounts[0]).value.next, pool, holders[1..], amounts[1..]);
            && PayAll(t, pool, holders, amounts).Ok? == rest.Ok?
            && (rest.Ok? ==> PayAll(t, pool, holders, amounts).value.next == rest.value.next)
  {
  }

  /** Paging: paying a batch in two calls has the same effect on the ledger
      as paying it in one. */
  lemma {:induction false} PayAllSplits(t: State, pool: Address, h1: seq<Address>, a1: seq<Uint256>,
                                        h2: seq<Address>, a2: seq<Uint256>)
    requires |h1| == |a1| && |h2| == |a2|
    requires PayAll(t, pool, h1, a1).Ok?
    ensures var whole := PayAll(t, pool, h1 + h2, a1 + a2);
            var paged := PayAll(PayAll(t, pool, h1, a1).value.next, pool, h2, a2);
            whole.Ok? == paged.Ok? && (whole.Ok? ==> whole.value.next == paged.value.next)
    decreases |h1|
  {
    if h1 != [] {
      var h, a := h1 + h2, a1 + a2;
      assert h[0] == h1[0] && a[0] == a1[0];
      assert h[1..] == h1[1..] + h2 && a[1..] == a1[1..] + a2;
      PayAllStep(t, pool, h1, a1);
      PayAllStep(t, pool, h, a);
      PayAllSplits(Transfer(t, pool, h1[0], a1[0]).value.next, pool, h1[1..], a1[1..], h2, a2);
    } else {
      assert h1 + h2 == h2 && a1 + a2 == a2;
    }
  }

  /** A mint of 10,000 at the default rates funds a fresh pool with exactly
      the 2,000 that twenty payouts of 100 need. */
  lemma MintFundsPool(s: State, admin: Address, writer: Address, unit: nat)
    requires 10000 * unit < TWO_256 && Mint(s, admin, writer, 10000 * unit).Ok?
    requires s.rates == DefaultRates && Balance(s, s.deputation) == 0
    requires writer != s.deputation && s.wallet != s.deputation
    ensures Balance(Mint(s, admin, writer, 10000 * unit).value.next, s.deputation) == 20 * (100 * unit)
  {
    DefaultSplit(unit);
  }

  lemma {:induction false} PayAllKeepsValid(t: State, pool: Address, holders: seq<Address>, amounts: seq<Uint256>)
    requires |holders| == |amounts|
    requires Valid(t) && PayAll(t, pool, holders, amounts).Ok?
    ensures Valid(PayAll(t, pool, holders, amounts).value.next)
    decreases |holders|
  {
    if holders != [] {
      var first := Transfer(t, pool, holders[0], amounts[0]).value;
      TransferKeepsValid(t, pool, holders[0], amounts[0]);
      PayAllKeepsValid(first.next, pool, holders[1..], amounts[1..]);
    }
  }

  lemma DistributeKeepsValid(d: Deputation, t: State, holders: seq<Address>, amounts: seq<Uint256>)
    requires Valid(t) && Distribute(d, t, holders, amounts).Ok?
    ensures Valid(Distribute(d, t, holders, amounts).value.next)
  {
    PayAllKeepsValid(t, d.self, holders, amounts);
  }
}
