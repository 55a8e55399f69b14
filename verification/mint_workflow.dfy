/** Issuance: the one-time genesis preMint, the two-phase mint workflow
    (an operator submits a request, an admin confirms it exactly once) and
    the admins' direct mint. Every ordinary mint splits the amount three
    ways and grows the supply by the full amount. None of these is gated by
    the pause flag. */
module MintWorkflow {
  import opened Base
  import opened BalanceLedger
  import opened Access
  import opened Split
  import opened TokenState

  /** What a mint of `amount` to `beneficiary` credits to address `a`:
      the writer share to the beneficiary, the system share to the system
      wallet, the holder share to the pool — summed where they coincide. */
  function Gain(s: State, beneficiary: Address, amount: nat, a: Address): nat {
    var sh := SplitAmount(amount, s.rates);
    (if a == beneficiary then sh.writer else 0)
    + (if a == s.wallet then sh.system else 0)
    + (if a == s.deputation then sh.holders else 0)
  }

  /** The registry after the three credits, made in this order: writer,
      system wallet, holder pool. */
  function RegisterShares(s: State, beneficiary: Address, amount: nat): seq<Address> {
    var sh := SplitAmount(amount, s.rates);
    Register(Register(Register(s.ledger.holders, beneficiary, sh.writer), s.wallet, sh.system),
             s.deputation, sh.holders)
  }

  /** One Mint event per credited share, in credit order. */
  function MintLog(s: State, beneficiary: Address, amount: nat): seq<Event> {
    var sh := SplitAmount(amount, s.rates);
    [Minted(beneficiary, sh.writer), Minted(s.wallet, sh.system), Minted(s.deputation, sh.holders)]
  }

  /** The mint primitive shared by confirmMintRequest and mint: credit the
      three shares, then grow the supply once by the whole amount. */
  function MintShares(s: State, beneficiary: Address, amount: nat): (t: State)
    ensures forall a :: Balance(t, a) == Balance(s, a) + Gain(s, beneficiary, amount, a)
    ensures TotalSupply(t) == TotalSupply(s) + amount
    ensures Sum(t.ledger.balances) == Sum(s.ledger.balances) + amount
    ensures t.ledger.holders == RegisterShares(s, beneficiary, amount)
    ensures t.ledger.allowances == s.ledger.allowances
    ensures t == s.(ledger := t.ledger)
  {
    var sh := SplitAmount(amount, s.rates);
    var l1 := Credit(s.ledger, beneficiary, sh.writer);
    var l2 := Credit(l1, s.wallet, sh.system);
    var l3 := Credit(l2, s.deputation, sh.holders);
    assert forall a :: BalanceOf(l3, a) == BalanceOf(s.ledger, a) + Gain(s, beneficiary, amount, a) by {
      forall a ensures BalanceOf(l3, a) == BalanceOf(s.ledger, a) + Gain(s, beneficiary, amount, a) {
        CreditThrice(s.ledger, beneficiary, sh.writer, s.wallet, sh.system, s.deputation, sh.holders, a);
      }
    }
    s.(ledger := l3.(totalSupply := s.ledger.totalSupply + amount))
  }

  /** preMint(): the owner's one-time genesis allocation of INITIAL_SUPPLY,
      credited whole to the owner and not split. */
  function PreMint(s: State, caller: Address): (r: Result<Step>)
    ensures r.Ok? <==> caller == s.roles.owner && !s.preMinted && TotalSupply(s) + s.initialSupply < TWO_256
    ensures r.Err? ==> r.error == (if caller != s.roles.owner then Unauthorized
                                   else if s.preMinted then AlreadyMinted
                                   else Overflow)
    ensures r.Ok? ==> Balance(r.value.next, caller) == Balance(s, caller) + s.initialSupply
    ensures r.Ok? ==> forall a :: a != caller ==> Balance(r.value.next, a) == Balance(s, a)
    ensures r.Ok? ==> TotalSupply(r.value.next) == TotalSupply(s) + s.initialSupply
    ensures r.Ok? ==> r.value.next.ledger.holders == Register(s.ledger.holders, caller, s.initialSupply)
    ensures r.Ok? ==> r.value.next == s.(ledger := r.value.next.ledger, preMinted := true)
    ensures r.Ok? ==> r.value.log == [Minted(caller, s.initialSupply)]
  {
    if caller != s.roles.owner then Err(Unauthorized)
    else if s.preMinted then Err(AlreadyMinted)
    else if TotalSupply(s) + s.initialSupply >= TWO_256 then Err(Overflow)
    else Ok(Step(s.(ledger := Issue(s.ledger, caller, s.initialSupply), preMinted := true),
                 [Minted(caller, s.initialSupply)]))
  }

  /** submitMintRequest(beneficiary, amount): an operator appends a new,
      unexecuted request; its id is the previous request count. */
  function SubmitMintRequest(s: State, caller: Address, beneficiary: Address, amount: Uint256): (r: Result<Step>)
    ensures r.Ok? <==> IsOperator(s.roles, caller) && beneficiary != Null && amount > 0
    ensures r.Err? ==> r.error == (if !IsOperator(s.roles, caller) then Unauthorized else InvalidArgument)
    ensures r.Ok? ==> MintRequestCount(r.value.next) == MintRequestCount(s) + 1
    ensures r.Ok? ==> GetMintRequest(r.value.next, MintRequestCount(s)) == Ok(MintRequest(beneficiary, amount, false))
    ensures r.Ok? ==> r.value.next.mintRequests[..MintRequestCount(s)] == s.mintRequests
    ensures r.Ok? ==> r.value.next == s.(mintRequests := r.value.next.mintRequests)
    ensures r.Ok? ==> r.value.log == [MintSubmitted(MintRequestCount(s), beneficiary, amount)]
  {
    if !IsOperator(s.roles, caller) then Err(Unauthorized)
    else if beneficiary == Null || amount == 0 then Err(InvalidArgument)
    else
      var id := |s.mintRequests|;
      Ok(Step(s.(mintRequests := s.mintRequests + [MintRequest(beneficiary, amount, false)]),
              [MintSubmitted(id, beneficiary, amount)]))
  }

  /** confirmMintRequest(id): an admin executes a pending request exactly
      once — the flag flips to true and the amount is minted and split. */
  function ConfirmMintRequest(s: State, caller: Address, id: nat): (r: Result<Step>)
    ensures r.Ok? <==> && IsAdmin(s.roles, caller)
                       && id < MintRequestCount(s)
                       && !s.mintRequests[id].isExecuted
                       && TotalSupply(s) + s.mintRequests[id].amount < TWO_256
    ensures r.Err? ==> r.error == (if !IsAdmin(s.roles, caller) then Unauthorized
                                   else if id >= MintRequestCount(s) then NotFound
                                   else if s.mintRequests[id].isExecuted then AlreadyExecuted
                                   else Overflow)
    ensures r.Ok? ==> r.value.next.mintRequests == s.mintRequests[id := s.mintRequests[id].(isExecuted := true)]
    ensures r.Ok? ==> forall a :: Balance(r.value.next, a)
                                  == Balance(s, a) + Gain(s, s.mintRequests[id].beneficiary, s.mintRequests[id].amount, a)
    ensures r.Ok? ==> TotalSupply(r.value.next) == TotalSupply(s) + s.mintRequests[id].amount
    ensures r.Ok? ==> r.value.next.ledger.holders
                      == RegisterShares(s, s.mintRequests[id].beneficiary, s.mintRequests[id].amount)
    ensures r.Ok? ==> r.value.next.ledger.allowances == s.ledger.allowances
    ensures r.Ok? ==> r.value.next == s.(ledger := r.value.next.ledger, mintRequests := r.value.next.mintRequests)
    ensures r.Ok? ==> r.value.log == MintLog(s, s.mintRequests[id].beneficiary, s.mintRequests[id].amount)
                                     + [MintConfirmed(id, s.mintRequests[id].beneficiary, s.mintRequests[id].amount)]
  {
    if !IsAdmin(s.roles, caller) then Err(Unauthorized)
    else if id >= |s.mintRequests| then Err(NotFound)
    else
      var req := s.mintRequests[id];
      if req.isExecuted then Err(AlreadyExecuted)
      else if TotalSupply(s) + req.amount >= TWO_256 then Err(Overflow)
      else
        var minted := MintShares(s, req.beneficiary, req.amount);
        Ok(Step(minted.(mintRequests := s.mintRequests[id := req.(isExecuted := true)]),
                MintLog(s, req.beneficiary, req.amount) + [MintConfirmed(id, req.beneficiary, req.amount)]))
  }

  /** mint(to, amount): an admin mints directly, with the same three-way
      split as a confirmed request. */
  function Mint(s: State, caller: Address, to: Address, amount: Uint256): (r: Result<Step>)
    ensures r.Ok? <==> IsAdmin(s.roles, caller) && to != Null && TotalSupply(s) + amount < TWO_256
    ensures r.Err? ==> r.error == (if !IsAdmin(s.roles, caller) then Unauthorized
                                   else if to == Null then InvalidArgument
                                   else Overflow)
    ensures r.Ok? ==> forall a :: Balance(r.value.next, a) == Balance(s, a) + Gain(s, to, amount, a)
    ensures r.Ok? ==> TotalSupply(r.value.next) == TotalSupply(s) + amount
    ensures r.Ok? ==> r.value.next.ledger.holders == RegisterShares(s, to, amount)
    ensures r.Ok? ==> r.value.next == s.(ledger := r.value.next.ledger)
    ensures r.Ok? ==> r.value.log == MintLog(s, to, amount)
  {
    if !IsAdmin(s.roles, caller) then Err(Unauthorized)
    else if to == Null then Err(InvalidArgument)
    else if TotalSupply(s) + amount >= TWO_256 then Err(Overflow)
    else Ok(Step(MintShares(s, to, amount), MintLog(s, to, amount)))
  }

  /** The split conserves value: what the three payees gain together is
      exactly the amount, and when they are distinct each gets its share. */
  lemma MintSplitConserves(s: State, beneficiary: Address, amount: nat)
    requires beneficiary != s.wallet && beneficiary != s.deputation && s.wallet != s.deputation
    ensures Gain(s, beneficiary, amount, beneficiary) + Gain(s, beneficiary, amount, s.wallet)
            + Gain(s, beneficiary, amount, s.deputation) == amount
    ensures Gain(s, beneficiary, amount, beneficiary) == SplitAmount(amount, s.rates).writer
    ensures Gain(s, beneficiary, amount, s.wallet) == SplitAmount(amount, s.rates).system
    ensures Gain(s, beneficiary, amount, s.deputation) == SplitAmount(amount, s.rates).holders
    ensures forall a :: a != beneficiary && a != s.wallet && a != s.deputation ==> Gain(s, beneficiary, amount, a) == 0
  {
  }

  /** At the default rates, confirming 10,000 (in any unit) pays the writer
      7,000, the pool 2,000 and the system wallet 1,000, and the supply
      grows by 10,000. */
  lemma ConfirmAtDefaultRates(s: State, caller: Address, id: nat, unit: nat)
    requires s.rates == DefaultRates
    requires ConfirmMintRequest(s, caller, id).Ok?
    requires s.mintRequests[id].amount == 10000 * unit
    requires s.mintRequests[id].beneficiary != s.wallet && s.mintRequests[id].beneficiary != s.deputation
    requires s.wallet != s.deputation
    ensures var t := ConfirmMintRequest(s, caller, id).value.next;
            && Balance(t, s.mintRequests[id].beneficiary) == Balance(s, s.mintRequests[id].beneficiary) + 7000 * unit
            && Balance(t, s.deputation) == Balance(s, s.deputation) + 2000 * unit
            && Balance(t, s.wallet) == Balance(s, s.wallet) + 1000 * unit
            && TotalSupply(t) == TotalSupply(s) + 10000 * unit
  {
    DefaultSplit(unit);
  }

  /** The genesis allocation happens at most once. */
  lemma PreMintOnlyOnce(s: State, caller: Address, again: Address)
    requires PreMint(s, caller).Ok?
    ensures PreMint(PreMint(s, caller).value.next, again).Err?
  {
  }

  /** A request is confirmed at most once: a second confirmation of the same
      id fails, whoever sends it, and so cannot credit anybody twice. */
  lemma ConfirmOnlyOnce(s: State, caller: Address, id: nat, again: Address)
    requires ConfirmMintRequest(s, caller, id).Ok?
    ensures ConfirmMintRequest(ConfirmMintRequest(s, caller, id).value.next, again, id).Err?
    ensures IsAdmin(s.roles, again) ==>
              ConfirmMintRequest(ConfirmMintRequest(s, caller, id).value.next, again, id) == Err(AlreadyExecuted)
  {
  }

  /** A submitted request reads back as (beneficiary, amount, false) under
      the id it was given; on a fresh log that id is 0. */
  lemma SubmitThenGet(s: State, caller: Address, beneficiary: Address, amount: Uint256)
    requires SubmitMintRequest(s, caller, beneficiary, amount).Ok?
    ensures var st := SubmitMintRequest(s, caller, beneficiary, amount).value;
            && st.log[0].mintRequestID == MintRequestCount(s)
            && GetMintRequest(st.next, st.log[0].mintRequestID) == Ok(MintRequest(beneficiary, amount, false))
            && GetMintRequest(st.next, st.log[0].mintRequestID + 1) == Err(NotFound)
            && (s.mintRequests == [] ==> st.log[0].mintRequestID == 0)
  {
  }

  /** The pause flag plays no part in issuance: submitting and confirming
      succeed or fail exactly as they would unpaused. */
  lemma MintingIgnoresPause(s: State, caller: Address, beneficiary: Address, amount: Uint256, id: nat)
    ensures SubmitMintRequest(s.(paused := true), caller, beneficiary, amount).Ok?
            == SubmitMintRequest(s.(paused := false), caller, beneficiary, amount).Ok?
    ensures ConfirmMintRequest(s.(paused := true), caller, id).Ok?
            == ConfirmMintRequest(s.(paused := false), caller, id).Ok?
    ensures Mint(s.(paused := true), caller, beneficiary, amount).Ok?
            == Mint(s.(paused := false), caller, beneficiary, amount).Ok?
  {
  }

  /** Registry effect of a mint: the beneficiary, if new and paid, is the
      first address appended; if all three payees are already listed the
      registry is untouched; at most three addresses are added. */
  lemma {:induction false} MintRegistry(s: State, beneficiary: Address, amount: nat)
    ensures var h := RegisterShares(s, beneficiary, amount);
            && s.ledger.holders <= h
            && |h| <= |s.ledger.holders| + 3
            && (beneficiary !in s.ledger.holders && SplitAmount(amount, s.rates).writer > 0 ==>
                  |h| > |s.ledger.holders| && h[|s.ledger.holders|] == beneficiary)
            && (beneficiary in s.ledger.holders && s.wallet in s.ledger.holders && s.deputation in s.ledger.holders ==>
                  h == s.ledger.holders)
  {
    var sh := SplitAmount(amount, s.rates);
    var h0 := s.ledger.holders;
    var h1 := Register(h0, beneficiary, sh.writer);
    var h2 := Register(h1, s.wallet, sh.system);
    var h3 := Register(h2, s.deputation, sh.holders);
    assert h0 <= h1 <= h2 <= h3;
    if beneficiary !in h0 && sh.writer > 0 {
      assert h1 == h0 + [beneficiary];
      assert h1[|h0|] == beneficiary;
      assert h3[|h0|] == h1[|h0|];
    }
  }

  /** After the genesis allocation, the first confirmed mint to a fresh
      writer lists four holders in first-credit order: the owner, the
      writer, the system wallet, the pool. */
  lemma FirstMintRegistryOrder(s: State, admin: Address, id: nat, unit: nat)
    requires s.rates == DefaultRates && unit > 0
    requires ConfirmMintRequest(s, admin, id).Ok? && s.mintRequests[id].amount == 10000 * unit
    requires s.ledger.holders == [s.roles.owner]
    requires var w := s.mintRequests[id].beneficiary;
             w != s.roles.owner && w != s.wallet && w != s.deputation
    requires s.wallet != s.roles.owner && s.deputation != s.roles.owner && s.wallet != s.deputation
    ensures var t := ConfirmMintRequest(s, admin, id).value.next;
            && t.ledger.holders == [s.roles.owner, s.mintRequests[id].beneficiary, s.wallet, s.deputation]
            && HolderCount(t) == 4
            && GetHolder(t, 0) == Ok(s.roles.owner)
            && GetHolder(t, 1) == Ok(s.mintRequests[id].beneficiary)
  {
    DefaultSplit(unit);
  }

  /** Minting first to the system wallet itself and then to a fresh writer
      lists the wallet at index 1 and the writer at index 3, four holders
      in all: an address credited twice in one mint is listed once. */
  lemma WalletThenWriterRegistryOrder(s: State, admin: Address, id1: nat, id2: nat, unit: nat)
    requires s.rates == DefaultRates && unit > 0
    requires s.ledger.holders == [s.roles.owner]
    requires s.wallet != s.roles.owner && s.deputation != s.roles.owner && s.wallet != s.deputation
    requires ConfirmMintRequest(s, admin, id1).Ok?
    requires s.mintRequests[id1].beneficiary == s.wallet && s.mintRequests[id1].amount == 10000 * unit
    requires id2 != id1 && id2 < MintRequestCount(s)
    requires var w := s.mintRequests[id2].beneficiary;
             w != s.roles.owner && w != s.wallet && w != s.deputation
    requires s.mintRequests[id2].amount == 10000 * unit
    requires ConfirmMintRequest(ConfirmMintRequest(s, admin, id1).value.next, admin, id2).Ok?
    ensures var t := ConfirmMintRequest(ConfirmMintRequest(s, admin, id1).value.next, admin, id2).value.next;
            && HolderCount(t) == 4
            && GetHolder(t, 1) == Ok(s.wallet)
            && GetHolder(t, 3) == Ok(s.mintRequests[id2].beneficiary)
  {
    DefaultSplit(unit);
    var mid := ConfirmMintRequest(s, admin, id1).value.next;
    assert mid.ledger.holders == [s.roles.owner, s.wallet, s.deputation];
    assert mid.mintRequests[id2] == s.mintRequests[id2];
  }

  lemma MintSharesKeepsValid(s: State, beneficiary: Address, amount: nat)
    requires Valid(s)
    requires TotalSupply(s) + amount < TWO_256
    ensures Valid(MintShares(s, beneficiary, amount))
  {
    var sh := SplitAmount(amount, s.rates);
    var l1 := Credit(s.ledger, beneficiary, sh.writer);
    var l2 := Credit(l1, s.wallet, sh.system);
    var l3 := Credit(l2, s.deputation, sh.holders);
    assert forall a :: BalanceOf(l3, a) == BalanceOf(s.ledger, a) + Gain(s, beneficiary, amount, a) by {
      forall a ensures BalanceOf(l3, a) == BalanceOf(s.ledger, a) + Gain(s, beneficiary, amount, a) {
        CreditThrice(s.ledger, beneficiary, sh.writer, s.wallet, sh.system, s.deputation, sh.holders, a);
      }
    }
    RegistryKeptByCredit(s.ledger, l1, beneficiary, sh.writer);
    RegistryKeptByCredit(l1, l2, s.wallet, sh.system);
    RegistryKeptByCredit(l2, l3, s.deputation, sh.holders);
    var t := MintShares(s, beneficiary, amount);
    assert t.ledger.balances == l3.balances && t.ledger.holders == l3.holders;
  }

  lemma PreMintKeepsValid(s: State, caller: Address)
    requires Valid(s)
    requires PreMint(s, caller).Ok?
    ensures Valid(PreMint(s, caller).value.next)
  {
    IssueKeepsConsistent(s.ledger, caller, s.initialSupply);
  }

  lemma SubmitKeepsValid(s: State, caller: Address, beneficiary: Address, amount: Uint256)
    requires Valid(s)
    requires SubmitMintRequest(s, caller, beneficiary, amount).Ok?
    ensures Valid(SubmitMintRequest(s, caller, beneficiary, amount).value.next)
  {
  }

  lemma ConfirmKeepsValid(s: State, caller: Address, id: nat)
    requires Valid(s)
    requires IsAdmin(s.roles, caller) && id < MintRequestCount(s) && !s.mintRequests[id].isExecuted
    requires TotalSupply(s) + s.mintRequests[id].amount < TWO_256
    ensures ConfirmMintRequest(s, caller, id).Ok?
    ensures Valid(ConfirmMintRequest(s, caller, id).value.next)
  {
    var req := s.mintRequests[id];
    MintSharesKeepsValid(s, req.beneficiary, req.amount);
  }

  lemma MintKeepsValid(s: State, caller: Address, to: Address, amount: Uint256)
    requires Valid(s)
    requires IsAdmin(s.roles, caller) && to != Null && TotalSupply(s) + amount < TWO_256
    ensures Mint(s, caller, to, amount).Ok?
    ensures Valid(Mint(s, caller, to, amount).value.next)
  {
    MintSharesKeepsValid(s, to, amount);
  }
}
