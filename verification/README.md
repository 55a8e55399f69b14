# MaskinToken ledger and Deputation payouts, modelled in Dafny

MaskinToken is a permissioned token with governed issuance, and this project models it as a pure state machine.

- **Roles.** An owner, with a two-step handover, manages sets of admins and operators.
- **Issuance.** Operators submit mint requests, and admins confirm each request exactly once. Every confirmed amount is split three ways:
  - a writer share to the request's beneficiary;
  - a system share to the system wallet;
  - a holder share to the holder pool, which is the address of the Deputation payout contract.

  The supply grows once by the full amount. The owner may also make a one-time genesis allocation (`preMint`).
- **Token operations.** The token supports ordinary transfers, allowances and burns. A transfer to the null address is a burn.
- **Pause.** A pause switch freezes value-moving operations but not issuance.
- **Holder registry.** The token keeps an append-only registry of holders in first-credit order.
- **Delegate bridge.** A single delegate address may act on behalf of any account.
- **Deputation.** The Deputation contract pays out of the pool to batches of holders.
- **reclaimToken.** A contract can sweep its own balance on another token's ledger to its owner.

Every operation is a function from a state and its arguments to `Result<Step>`. A `Step` is the next state plus the events emitted, in order. A rejection is an `Err(error)` that carries no state, so a rejected call has no effect at all.

The Solidity contracts are not part of this model. The behaviour modelled is the behaviour their test suites assert. Where the design documentation and the test suites disagree, the model follows the tests; the list below says where.

Modules, one per component:

- `Base` defines:
  - addresses, with 0 as the null address;
  - the 256-bit word;
  - the error taxonomy and the result type;
  - the domain events. They are renamed so they do not clash with operation names: `Transfer` becomes `Transferred`, `Burn` becomes `Burned`, `ChangePaidRates` becomes `PaidRatesChanged`, and so on.
- `BalanceLedger`: balances, allowances, supply and the holder registry, with the ledger invariant `Consistent`. The invariant says:
  - the supply is the sum of all balances and fits in a word;
  - every allowance fits in a word;
  - the registry has no duplicates and lists every address with a positive balance.
- `Split`: the revenue splitter and rate validation.
- `Access`: the owner, the pending owner, the admins and the operators.
- `TokenState`: the whole token state, its invariant `Valid`, and the read-only queries.
- `StandardToken`: transfer, transferFrom, approve, increase/decreaseApproval and burn.
- `MintWorkflow`: preMint, submitMintRequest, confirmMintRequest and the admins' direct mint.
- `Governance`: paid rates, wallet and pool addresses, pause/unpause, setDelegatedFrom, and role and ownership calls on the token.
- `Delegate`: the delegate* operations.
- `Payout`: the Deputation contract, `setToken` and `distribute`.
- `Reclaim`: reclaimToken.
- `Machine`: every call as a value, the 256-bit decoding of amounts at the call interface, and runs of calls.

Choices where the design documentation and the tests differ, or where neither fixes the behaviour:

- **Overflow is checked.** The deployment script links SafeMath (migrations/4_deploy_MaskinToken.js:2, 18). So a supply or allowance that would pass 2^256 is refused with `Overflow`; it does not wrap. The one wrap-around the tests do show is the decoding of an oversized argument. `Truncate` models it, applied in `Machine.Exec`.
- **The rates bound is `system + writer <= 100`.** A sum above 100 is refused, and so is either rate at 100 or more (test/contracts/MaskinToken.js:289-323). The design documentation says a sum of 100 is refused too; the tests only name "greater than 100".
- **transferFrom refuses the null recipient.** The design documentation says transferFrom to the null address burns. The tests expect a rejection (test/contracts/base-token/StandardToken.js:210-217, test/contracts/WithdrawalToken.js:115-119).
- **distribute is open to any caller.** The tests call it from an account that is neither the Deputation's owner nor an admin (test/contracts/Deputation.js:100-103).
- **The rounding remainder of a split goes to the holder pool.** No test fixes this, because every amount in the test suites is a multiple of 100.
- **Mint credits are made in the order writer, system wallet, pool.** This order fixes the registry order. The tests fix only that the writer comes before both (test/contracts/TraceableToken.js:129-134).
- **Only a positive credit registers an address.** A zero-amount transfer never adds a holder.
- **getHolder and getTheNumberOfHolders are unrestricted.** The tests only call them as the owner.
- **The delegate write operations are pause-gated.** Each delegate* write is exactly the direct operation by the account it names, so while paused it fails with ContractPaused. No delegate test exercises a pause.
- **delegateTransfer to the null address burns.** For the same reason it behaves as a transfer to the null address. No delegate test sends to the null address.
- **A burn larger than the supply is refused with InsufficientFunds.** The burn's checked subtraction on the supply can only fail when a balance exceeds the supply, and a valid state never has one.

## Model

| member | source | states |
|---|---|---|
| `Base.Truncate` | test/contracts/base-token/StandardToken.js:149-152 | An argument is decoded modulo 2^256: unchanged when it fits, and differing from the raw value by a multiple of 2^256 otherwise |
| `BalanceLedger.Register` | test/contracts/TraceableToken.js:129-148 | The registry grows by exactly one address if and only if the credit is positive and the address is new. Membership is exactly the old members plus that address. The registry is otherwise unchanged, and absence of duplicates is kept |
| `BalanceLedger.Move` | test/contracts/base-token/StandardToken.js:263-277 | The sender is debited and the recipient credited by exactly the amount, and nobody else changes. A self-transfer changes nothing, and the sum of balances is kept |
| `BalanceLedger.Issue` | test/contracts/MaskinToken.js:97-108 | Issuance credits the recipient and grows the supply by the same amount; every other balance is unchanged |
| `BalanceLedger.Destroy` | test/contracts/WithdrawalToken.js:94-100 | A burn debits the burner and shrinks the supply by the same amount; every other balance is unchanged |
| `BalanceLedger.RegistryKeptByCredit` | test/contracts/TraceableToken.js:97-148 | Any registering credit keeps the registry free of duplicates and keeps every funded address listed |
| `BalanceLedger.IssueKeepsConsistent` | test/contracts/delegate/DelegateToken.js:117-122 | Issuing within the word keeps the supply equal to the sum of balances, and keeps the registry invariant |
| `BalanceLedger.MoveKeepsConsistent` | test/contracts/base-token/StandardToken.js:180-194 | A covered move keeps the ledger invariant |
| `BalanceLedger.DestroyKeepsConsistent` | test/contracts/WithdrawalToken.js:94-100 | A covered burn keeps the ledger invariant |
| `BalanceLedger.SetAllowanceKeepsConsistent` | test/contracts/base-token/StandardToken.js:66-71 | Setting an allowance that fits a word keeps the ledger invariant |
| `Split.SplitAmount` | test/contracts/MaskinToken.js:200-214 | The three shares add up to the amount. The writer and system shares are their rates of the amount, rounded down. The holder share is within rounding of its rate |
| `Split.SplitExact` | test/contracts/MaskinToken.js:253-275 | For an amount divisible by 100 each share is exactly its rate of the amount |
| `Split.DefaultSplit` | test/contracts/MaskinToken.js:200-214 | At the default rates, 10,000 splits into 7,000 for the writer, 1,000 for the system and 2,000 for the holders, in any unit |
| `Split.DefaultSplitPerHundred` | test/contracts/delegate/DelegateToken.js:131-147 | At the default rates every 100 units split into 70 for the writer, 10 for the system and 20 for the holders |
| `Split.CheckRates` | test/contracts/MaskinToken.js:289-323 | New rates are accepted if and only if each is below 100 and their sum is at most 100. The derived holder rate makes the three add to 100. Otherwise InvalidArgument |
| `Split.ChangedRatesSplit` | test/contracts/MaskinToken.js:253-275 | Rates (20, 60) are accepted and split 10,000 into 6,000, 2,000 and 2,000 |
| `Access.AddEach` | test/contracts/access/HasAdmin.js:124-138 | Adding a batch one by one yields exactly the old members plus the batch |
| `Access.RemoveEach` | test/contracts/access/HasAdmin.js:205-220 | Removing a batch one by one yields exactly the old members not in the batch |
| `Access.Grant` | test/contracts/access/HasAdmin.js:92-154 | Adding admins or operators succeeds if and only if the owner calls, else Unauthorized. It adds exactly the batch and leaves the other role and the ownership untouched |
| `Access.Revoke` | test/contracts/access/HasOperator.js:172-236 | Removal succeeds if and only if the owner calls, else Unauthorized. It removes exactly the batch and leaves the other role and the ownership untouched |
| `Access.GrantIdempotent` | test/contracts/access/HasAdmin.js:92-106 | Granting the same batch twice equals granting it once |
| `Access.RevokeNonMembersIsNoOp` | test/contracts/access/HasAdmin.js:205-220 | Removing addresses that are not members changes nothing and is not an error |
| `Access.RevokeUndoesGrant` | test/contracts/access/HasOperator.js:124-236 | Granting and then revoking a batch leaves the earlier members minus the batch |
| `Access.TransferOwnership` | test/contracts/MaskinToken.js:396-418 | Nomination succeeds if and only if the owner calls and names neither the contract itself nor the current owner. It sets only the pending owner |
| `Access.ClaimOwnership` | test/contracts/MaskinToken.js:424-426 | Only the pending owner completes the handover. It becomes owner, the pending slot is cleared, and the roles are kept |
| `Access.HandoverCompletes` | test/contracts/MaskinToken.js:397-404 | Nomination followed by the nominee's claim makes the nominee the owner |
| `TokenState.Init` | test/contracts/base-token/StandardToken.js:54-58 | A fresh token has zero supply, all balances and allowances at zero, no holders, no requests, no admins or operators, default rates (holder rate 20), not paused and no delegate |
| `TokenState.InitValid` | test/contracts/base-token/StandardToken.js:144-147 | A fresh token with real payees satisfies the contract invariant |
| `TokenState.GetMintRequest` | test/contracts/MaskinToken.js:164-174 | Reading a request succeeds if and only if the id is below the count, and returns that request; otherwise NotFound |
| `TokenState.GetHolder` | test/contracts/TraceableToken.js:129-134 | Reading a holder succeeds if and only if the index is below the count, and returns the holder at that position; otherwise IndexOutOfRange |
| `StandardToken.Burn` | test/contracts/base-token/PausableToken.js:114-121 | A burn succeeds if and only if the token is unpaused and both the balance and the supply cover it; otherwise ContractPaused, then InsufficientFunds. The burner and the supply both drop by the amount, nothing else changes, and one Burn event is emitted |
| `StandardToken.Transfer` | test/contracts/base-token/StandardToken.js:263-327 | A transfer to the null address is exactly a burn with an empty note. Otherwise it succeeds if and only if the token is unpaused and the balance covers it. It moves exactly the amount and registers the recipient |
| `StandardToken.TransferFrom` | test/contracts/base-token/StandardToken.js:170-251 | Succeeds if and only if unpaused, the recipient is not null, and both balance and allowance cover it, with the error in that order. It spends exactly the amount of the allowance and moves exactly the amount |
| `StandardToken.Approve` | test/contracts/base-token/StandardToken.js:61-82 | While unpaused the allowance becomes exactly the value and every other allowance and balance is unchanged |
| `StandardToken.IncreaseApproval` | test/contracts/base-token/StandardToken.js:84-106 | While unpaused the allowance grows by the value, unless it would pass the word (Overflow). The event carries the new allowance |
| `StandardToken.DecreaseApproval` | test/contracts/base-token/StandardToken.js:108-142 | While unpaused the allowance shrinks by the value, or becomes 0 when the value exceeds it |
| `StandardToken.PausedBlocksValueMoves` | test/contracts/base-token/PausableToken.js:147-190 | While paused, all six value-moving and allowance operations fail with ContractPaused |
| `StandardToken.DecreaseApprovalFloorsAtZero` | test/contracts/base-token/StandardToken.js:122-129 | Decreasing by at least the allowance leaves it at 0 |
| `StandardToken.ApproveThenIncrease` | test/contracts/base-token/StandardToken.js:89-95 | Approving v and then increasing by v gives 2v |
| `StandardToken.TransferRegistry` | test/contracts/TraceableToken.js:129-148 | A transfer to a new address appends it at the end; a transfer to a listed holder keeps count and order |
| `StandardToken.TransferFromRegistry` | test/contracts/TraceableToken.js:162-186 | The same for transferFrom |
| `StandardToken.BurnKeepsValid` | test/contracts/WithdrawalToken.js:88-100 | A burn keeps the contract invariant |
| `StandardToken.TransferKeepsValid` | test/contracts/base-token/StandardToken.js:263-277 | A transfer keeps the contract invariant and only extends the registry |
| `StandardToken.TransferFromKeepsValid` | test/contracts/base-token/StandardToken.js:180-194 | A transferFrom keeps the contract invariant |
| `StandardToken.ApproveKeepsValid` | test/contracts/base-token/StandardToken.js:66-71 | approve keeps the contract invariant |
| `StandardToken.IncreaseApprovalKeepsValid` | test/contracts/base-token/StandardToken.js:89-95 | increaseApproval keeps the contract invariant |
| `StandardToken.DecreaseApprovalKeepsValid` | test/contracts/base-token/StandardToken.js:113-129 | decreaseApproval keeps the contract invariant |
| `MintWorkflow.MintShares` | test/contracts/delegate/DelegateToken.js:117-122 | A mint credits every address exactly its combined share and grows the supply once by the full amount. The registry grows in the order writer, wallet, pool |
| `MintWorkflow.PreMint` | test/contracts/MaskinToken.js:96-118 | Succeeds if and only if the owner calls for the first time (else Unauthorized, then AlreadyMinted). It credits exactly INITIAL_SUPPLY to the owner, unsplit, and nobody else |
| `MintWorkflow.SubmitMintRequest` | test/contracts/MaskinToken.js:120-152 | Succeeds if and only if an operator submits a real beneficiary and a positive amount. The count grows by one and the request reads back as (beneficiary, amount, false) under the old count. Earlier requests are kept |
| `MintWorkflow.ConfirmMintRequest` | test/contracts/MaskinToken.js:176-238 | Succeeds if and only if an admin confirms an existing, unexecuted request (else Unauthorized, NotFound, AlreadyExecuted). Only that request's flag flips, and the amount is minted with the split |
| `MintWorkflow.Mint` | test/contracts/base-token/StandardToken.js:292-300 | An admin's direct mint to a real address has the same three-way split and full supply growth as a confirmed request |
| `MintWorkflow.MintSplitConserves` | test/contracts/MaskinToken.js:200-214 | With distinct payees each gets its own share, the three gains add up to the amount, and nobody else gains |
| `MintWorkflow.ConfirmAtDefaultRates` | test/contracts/MaskinToken.js:200-214 | Confirming 10,000 at default rates credits 7,000 to the writer, 2,000 to the pool and 1,000 to the wallet, and adds 10,000 to the supply |
| `MintWorkflow.PreMintOnlyOnce` | test/contracts/MaskinToken.js:109-113 | A second preMint fails, whoever calls |
| `MintWorkflow.ConfirmOnlyOnce` | test/contracts/MaskinToken.js:225-228 | A second confirmation of the same id fails, with AlreadyExecuted for an admin |
| `MintWorkflow.SubmitThenGet` | test/contracts/MaskinToken.js:144-173 | The emitted id reads back the submitted request, the id after it is NotFound, and the first id is 0 |
| `MintWorkflow.MintingIgnoresPause` | test/contracts/base-token/PausableToken.js:139-145 | Submit, confirm and mint succeed or fail independently of the pause flag |
| `MintWorkflow.MintRegistry` | test/contracts/TraceableToken.js:97-115 | A new, paid beneficiary is the first address appended. No address is appended when all three payees are listed, at most three are appended, and nothing is removed |
| `MintWorkflow.FirstMintRegistryOrder` | test/contracts/TraceableToken.js:97-134 | After preMint, the first mint to a fresh writer lists owner, writer, wallet, pool: four holders with the writer at index 1 |
| `MintWorkflow.WalletThenWriterRegistryOrder` | test/contracts/TraceableToken.js:189-231 | Minting to the wallet and then to a fresh writer gives four holders, with the wallet at index 1 and the writer at index 3 |
| `MintWorkflow.MintSharesKeepsValid` | test/contracts/MaskinToken.js:200-214 | A mint within the word keeps the contract invariant |
| `MintWorkflow.PreMintKeepsValid` | test/contracts/MaskinToken.js:97-108 | preMint keeps the contract invariant |
| `MintWorkflow.SubmitKeepsValid` | test/contracts/MaskinToken.js:132-139 | Accepted requests always have a real beneficiary and a positive amount |
| `MintWorkflow.ConfirmKeepsValid` | test/contracts/MaskinToken.js:186-214 | An admin's confirmation of a pending request that fits the word succeeds and keeps the contract invariant |
| `MintWorkflow.MintKeepsValid` | test/contracts/Deputation.js:92-98 | An admin's mint to a real address that fits the word succeeds and keeps the contract invariant |
| `Governance.ChangePaidRates` | test/contracts/MaskinToken.js:240-332 | Succeeds if and only if an admin proposes acceptable rates (else Unauthorized, then InvalidArgument). It sets system and writer and derives the holder rate, with nothing else changed |
| `Governance.ChangeWallet` | test/contracts/MaskinToken.js:334-363 | Succeeds if and only if an admin names a non-null wallet; only the wallet changes, and WalletChanged(addr) is emitted |
| `Governance.ChangeDeputation` | test/contracts/MaskinToken.js:365-394 | Succeeds if and only if an admin names a non-null pool; only the pool address changes |
| `Governance.Pause` | test/contracts/base-token/PausableToken.js:125-137 | Succeeds if and only if the owner calls while unpaused (else Unauthorized or InvalidStateTransition); only the flag changes |
| `Governance.Unpause` | test/contracts/base-token/PausableToken.js:193-212 | Succeeds if and only if the owner calls while paused; only the flag changes |
| `Governance.SetDelegatedFrom` | test/contracts/delegate/DelegateToken.js:82-105 | Succeeds if and only if the owner calls; it replaces the delegate and emits DelegatedFromSet(addr) |
| `Governance.GrantRole` | test/contracts/access/HasOperator.js:91-155 | Owner-only role addition on the token: exactly the batch is added, and the other role is untouched |
| `Governance.RevokeRole` | test/contracts/access/HasAdmin.js:172-236 | Owner-only role removal on the token: exactly the batch is removed, and the other role is untouched |
| `Governance.NominateOwner` | test/contracts/MaskinToken.js:396-418 | On the token, transferOwnership only sets the pending owner, and refuses the token's own address |
| `Governance.ClaimTokenOwnership` | test/contracts/MaskinToken.js:424-426 | On the token, only the pending owner can claim ownership |
| `Governance.PauseRoundTrip` | test/contracts/base-token/PausableToken.js:193-207 | Pause then unpause, or unpause then pause, by the owner restores the state exactly |
| `Governance.PauseFreezesTransfers` | test/contracts/base-token/PausableToken.js:139-190 | After pause every guarded call fails with ContractPaused, while submit and confirm are judged as before |
| `Governance.UnpauseReenables` | test/contracts/base-token/PausableToken.js:214-237 | After unpause all six guarded operations work again: approve and decreaseApproval always succeed. increaseApproval succeeds within the word. Transfer, transferFrom and burn succeed whenever balance, allowance and supply cover them |
| `Governance.ChangedRatesThenConfirm` | test/contracts/MaskinToken.js:253-275 | After rates (20, 60), confirming 10,000 pays 6,000 to the writer and 2,000 each to the pool and the wallet |
| `Governance.ChangePaidRatesKeepsValid` | test/contracts/MaskinToken.js:241-252 | A rate change keeps the contract invariant |
| `Governance.ChangeWalletKeepsValid` | test/contracts/MaskinToken.js:350-356 | The wallet never becomes null |
| `Governance.ChangeDeputationKeepsValid` | test/contracts/MaskinToken.js:381-387 | The pool never becomes null |
| `Delegate.DelegateTotalSupply` | test/contracts/delegate/DelegateToken.js:107-129 | Succeeds if and only if the configured, non-null delegate calls, and returns the supply; otherwise Unauthorized |
| `Delegate.DelegateBalanceOf` | test/contracts/delegate/DelegateToken.js:131-154 | Only the delegate reads a balance, and it reads the ledger's balance |
| `Delegate.DelegateAllowance` | test/contracts/delegate/DelegateToken.js:188-198 | Only the delegate reads an allowance, and it reads the ledger's allowance |
| `Delegate.DelegateTransfer` | test/contracts/delegate/DelegateToken.js:156-186 | Only the delegate may call it. It is a transfer by origin: origin is debited and the recipient credited by exactly the amount |
| `Delegate.DelegateTransferFrom` | test/contracts/delegate/DelegateToken.js:200-237 | Only the delegate may call it. It is a transferFrom by the named spender, spending that spender's allowance |
| `Delegate.DelegateApprove` | test/contracts/delegate/DelegateToken.js:239-258 | Only the delegate may call it; origin's allowance for the spender becomes the value |
| `Delegate.DelegateIncreaseApproval` | test/contracts/delegate/DelegateToken.js:260-279 | Only the delegate may call it; origin's allowance grows by the value |
| `Delegate.DelegateDecreaseApproval` | test/contracts/delegate/DelegateToken.js:281-300 | Only the delegate may call it; origin's allowance shrinks by the value, floored at 0 |
| `Delegate.DelegateBurn` | test/contracts/delegate/DelegateToken.js:302-320 | Only the delegate may call it; it burns from the named account |
| `Delegate.FreshBridgeClosed` | test/contracts/delegate/DelegateToken.js:124-129 | Before setDelegatedFrom, every caller is refused |
| `Delegate.DelegateSupplyAfterConfirm` | test/contracts/delegate/DelegateToken.js:107-122 | After a confirmed mint the delegate reads the supply grown by the full amount: 100 after the first mint of 100 |
| `Delegate.DelegateReadsWriterShare` | test/contracts/delegate/DelegateToken.js:131-147 | After a mint of 100 at default rates the delegate reads 70 for a fresh writer |
| `Delegate.DelegateTransferKeepsValid` | test/contracts/delegate/DelegateToken.js:166-178 | delegateTransfer keeps the contract invariant |
| `Delegate.DelegateTransferFromKeepsValid` | test/contracts/delegate/DelegateToken.js:211-229 | delegateTransferFrom keeps the contract invariant |
| `Delegate.DelegateBurnKeepsValid` | test/contracts/delegate/DelegateToken.js:312-315 | delegateBurn keeps the contract invariant |
| `Payout.NewDeputation` | test/contracts/Deputation.js:39-40 | A new payout contract belongs to its deployer and has no token configured |
| `Payout.SetToken` | test/contracts/Deputation.js:77-84 | Only the owner sets the ledger reference. Exactly that reference changes, and the TokenSet event carries the given address |
| `Payout.Received` | test/contracts/Deputation.js:100-109 | What an address is paid by a batch is at most the batch total, and 0 when the address is not in it |
| `Payout.PayAll` | test/contracts/Deputation.js:100-109 | A batch changes only the ledger, keeps allowances, and only extends the registry. It succeeds whenever the token is unpaused and the pool covers the total, and fails with ContractPaused when paused |
| `Payout.PayAllPays` | test/contracts/Deputation.js:100-109 | A batch pays every non-pool address exactly what the batch pairs with it, and the pool pays the total less what it pays itself. A pair naming the null address burns its amount from the supply |
| `Payout.Distribute` | test/contracts/Deputation.js:87-131 | Refused in order with LedgerNotConfigured, LengthMismatch, InsufficientPoolBalance; with the checks passed, a non-empty batch on a paused token fails with ContractPaused. When unpaused and covered it succeeds. Only the ledger changes: allowances are kept and the registry only grows. It pays as PayAllPays, with null pairs burning from the supply, and ends with FundsDistributed listing holders and amounts in input order |
| `Payout.DistinctHoldersPaidExactly` | test/contracts/Deputation.js:100-109 | In a batch of distinct holders, each holder's payment is exactly its paired amount |
| `Payout.DistributePaysEachHolder` | test/contracts/Deputation.js:100-109 | Distributing to distinct fresh holders leaves holders[i] with exactly amounts[i] and the pool down by the total |
| `Payout.PayAllSplits` | test/contracts/Deputation.js:100-118 | Paying a batch in two consecutive calls succeeds exactly when paying it in one does, with the same final ledger |
| `Payout.MintFundsPool` | test/contracts/Deputation.js:92-98 | A mint of 10,000 at default rates gives a fresh pool exactly 20 × 100 |
| `Payout.PayAllKeepsValid` | test/contracts/Deputation.js:100-109 | A payout batch keeps the contract invariant |
| `Payout.DistributeKeepsValid` | test/contracts/Deputation.js:100-109 | distribute keeps the contract invariant |
| `Reclaim.ReclaimToken` | test/contracts/zeppelin/contracts/ownership/CanReclaimToken.js:36-77 | Only the owner may reclaim. The owner's foreign balance rises by exactly what the contract held, the contract is left with 0, and one Transferred(contract, owner, amount) event is emitted |
| `Reclaim.ReclaimTwiceMovesNothing` | test/contracts/zeppelin/contracts/ownership/CanReclaimToken.js:41-46 | A second reclaim moves nothing |
| `Reclaim.ReclaimKeepsValid` | test/contracts/zeppelin/contracts/ownership/CanReclaimToken.js:37-39 | A reclaim keeps the foreign ledger's invariant |
| `Machine.Exec` | test/contracts/TraceableToken.js:136-148 | No call removes or reorders a registered holder, rewrites a request other than marking it executed, undoes preMint, or changes the token's address or INITIAL_SUPPLY |
| `Machine.Run` | test/contracts/MaskinToken.js:225-228 | Over any run of calls the registry and the request log only grow, and an executed request stays executed |
| `Machine.ExecKeepsValid` | test/contracts/delegate/DelegateToken.js:117-122 | Every call keeps the contract invariant, in particular supply equal to the sum of balances |
| `Machine.RunKeepsValid` | test/contracts/TraceableToken.js:97-148 | Every run of calls from a valid state ends in a valid state |
| `Machine.ReachableValid` | test/contracts/base-token/StandardToken.js:54-58 | Every state reachable from deployment is valid |
| `Machine.ExecutedStaysExecuted` | test/contracts/MaskinToken.js:225-228 | After any run of calls, a confirmed request can never be confirmed again |
| `Machine.ApproveBeyondWordIsZero` | test/contracts/base-token/StandardToken.js:149-152 | Approving a multiple of 2^256 leaves the allowance at 0 |
| `Machine.TransferBeyondWordMovesNothing` | test/contracts/base-token/StandardToken.js:316-327 | Transferring a multiple of 2^256 succeeds and leaves every balance unchanged |
| `Machine.TransferFromBeyondWordMovesNothing` | test/contracts/base-token/StandardToken.js:236-251 | transferFrom of a multiple of 2^256 succeeds and leaves every balance unchanged |
| `Machine.MaxWordTransferRefused` | test/contracts/base-token/StandardToken.js:302-314 | Transferring or transferFrom-ing MAX_UINT from a smaller balance fails with InsufficientFunds |
| `Machine.MintThenWithdrawAll` | test/contracts/base-token/StandardToken.js:292-300 | An admin mint of 100 leaves the writer 70. Transferring 70 to the null address burns it, leaves the writer at 0, and emits Burn(writer, 70, "") |

## Left out

- Deployment scripts: network selection, linking and process exit (migrations/*).
- The BalanceSheet storage indirection: setBalanceSheet and its ownership handover. Balances live directly in the token state.
- The test fixture of addresses read from a file. Addresses are abstract numbers here.
- Transport: ABI encoding, raw transactions, gas, and event retrieval through log filters. Events are values returned by each transition.
- The numeric value of INITIAL_SUPPLY and the 18-decimal token unit. They are not visible, so INITIAL_SUPPLY is a deployment parameter, and the scenario lemmas take the unit as a parameter.
- The exact value of OVER_UINT in the test helpers, which are not part of this model. The truncation lemmas cover every multiple of 2^256, 2^256 itself included.
- `Distribute` takes the ledger found at the configured token address as an argument. The cross-contract call is not modelled.
- `Reclaim.ReclaimToken` requires the contract's foreign balance to fit a 256-bit word. Every balance on a valid ledger does.
- `Machine.Exec` leaves out Deputation and reclaim calls. They act on other contracts and are modelled by `Payout.Distribute` and `Reclaim.ReclaimToken`.
- The fixed-width wrap-around of supply and allowances is not modelled, because overflow is refused instead (see above).
