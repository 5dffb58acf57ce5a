# Supply modification and on-chain governance of a ledger node

This project models three pieces of a ledger node's state-transition layer
and proves properties of them in Dafny.

- **ModifySupplyActuator** (`modify_supply.dfy`). A privileged owner mints
  an amount into a customer account, or burns it from one. `Validate` is the
  read-only guard chain and reports the first failing check.
  `ExecuteSpec`/`Execute` do the following in order:
  - create a missing customer account;
  - charge the fee to the owner and credit it to the blackhole account;
  - credit or debit the customer;
  - save the new total supply.

  A failed balance adjustment records FAILED and keeps the earlier writes.
- **ProposalCreateActuator** (`proposal_create.dfy`). A witness proposes new
  values for chain parameters.
  - `Validate` checks the proposer, then every (id, value) entry. It stops
    at the first entry with a bad id (`ValidKey`) or a bad value
    (`ValidateValue`, the per-id switch).
  - `RuleFor`/`Admits` restate that switch as a declarative rule table, and
    the contract of `ValidateValue` states that the two agree.
  - `Execute` allocates id `latestProposalNum + 1` and stores a pending
    proposal. Its expiration lies on the maintenance grid, computed with
    Java's truncating division.
- **ProposalController** (`proposal_controller.dfy`). At each maintenance,
  `ProcessProposals` scans the proposal store from the latest id downwards.
  - It stops at the first proposal already voted on.
  - It skips canceled proposals and proposals that have not expired.
  - It resolves expired proposals through `ProcessProposal`: approved when
    they have most approvals among the active witnesses, disapproved
    otherwise.
  - `SetDynamicParameters` applies an approved proposal's parameter map
    entry by entry. It reproduces the switch's exact behaviour:
    - ids 10, 20 and 21 are one-shot switches;
    - case 22 falls through into 23, and 23 into 24, because those cases
      have no `break`;
    - a value `Long.parseLong` rejects throws, which ends the whole scan.
  - The imperative methods are proved against the functions
    `ApplyParameter`, `ApplyParameters`, `ResolveProposal` and
    `ProcessFrom`. Lemmas about those functions state what the scan does
    and does not change.

Shared state is in `chain.dfy` (module `Chain`):
- the account, dynamic-properties and proposal stores, as fields of the
  `Manager` class;
- `Adjust`, the balance adjustment every actuator uses;
- `Total`, the sum of all balances;
- `Indexed`, which says that proposal ids 1..n are stored under their own id.

`java_long.dfy` (module `JavaLong`) models the Java library behaviour the
code relies on:
- `Long.parseLong`, with `Long.toString` as its partner;
- truncating `/`;
- `Long.intValue()`.

Collaborators whose code is not part of this model are parameters, in the
`Externals` record:
- `Wallet.addressValid`;
- `ByteArray.fromHexString`;
- the number of `ChainParameters`;
- the configured proposal lifetime;
- `ProposalCapsule.hasExpired`;
- `ProposalCapsule.hasMostApprovals`.

The fork controller is given as the set of passed milestones. The head block
time, the witness sets and the blackhole address are read-only fields of
`Manager`.

Where the code and the design description disagree, the model follows the
code:
- The parameter map is applied in the order the map's iteration yields,
  given as a sequence. The code does not sort the entries by ascending id.
- Parameters 11 and 12 are not parsed at validation, so an unparsable value
  can reach `setDynamicParameters`. There it throws.

## Model

| member | source | states |
|---|---|---|
| Chain.Adjust | ModifySupplyActuator.java:56-66 | adjustBalance succeeds exactly when the delta is non-negative or the balance covers the debit |
| Chain.AdjustEffect | ModifySupplyActuator.java:56-66 | a successful adjustment changes only the balance at its address, by exactly the delta, and adds that address to the store |
| Chain.AdjustShiftsTotal | ModifySupplyActuator.java:56-66 | a successful adjustment moves the sum of all balances by exactly the delta |
| Chain.IndexedUpdate | ProposalCreateActuator.java:62-64 | writing the store above id n, or writing a proposal under its own id, keeps ids 1..n stored under their own ids |
| Chain.Manager.AdjustBalance | ModifySupplyActuator.java:56-66 | the method succeeds exactly when `Adjust` does and then stores its result; otherwise nothing changes |
| JavaLong.ParseLong | ProposalController.java:104 | a parsed value lies in the 64-bit range; an unsigned digit string parses exactly when its value fits |
| JavaLong.ParseDecimal | ProposalController.java:104 | parsing the decimal rendering of any 64-bit value gives the value back |
| JavaLong.Quot | ProposalCreateActuator.java:57 | the quotient truncates toward zero: below the dividend for a non-negative one, above it for a negative one, within one divisor |
| JavaLong.IntValue | ProposalController.java:102 | the result is a 32-bit signed value congruent to the input modulo 2^32, and equal to it when it already fits |
| ModifySupplyActuator.CalcFee | ModifySupplyActuator.java:173-176 | the base fee of a supply change is 0, so the only fee charged is the account-creation fee (see ExecuteMovesBalances) |
| ModifySupplyActuator.Validate | ModifySupplyActuator.java:85-166 | passes exactly when the contract decodes and every guard holds; each error (missing, wrong type, undecodable, owner address, owner account, increase or decrease authority, customer address, customer account, fee, amount, balance) is given when the guards before it pass and its own fails, and for the authority, customer account, fee, amount and balance guards only then |
| ModifySupplyActuator.Execute | ModifySupplyActuator.java:29-82 | the new account store, total supply, receipt and thrown error are those of `ExecuteSpec`; proposals are untouched |
| ModifySupplyActuator.ExecuteConservesSupply | ModifySupplyActuator.java:56-68 | on every path the sum of balances minus the total supply is unchanged |
| ModifySupplyActuator.SettleConservesSupply | ModifySupplyActuator.java:56-68 | the three balance adjustments, stopping at the first failure, keep the sum of balances minus the total supply |
| ModifySupplyActuator.ExecuteMovesBalances | ModifySupplyActuator.java:41-70 | a successful execute charges the owner the fee, credits the blackhole with it, moves the customer by the signed amount, changes no other balance, and moves the total supply by the same amount |
| ModifySupplyActuator.ValidatedExecuteSucceeds | ModifySupplyActuator.java:133-163 | a validated contract executes successfully with exactly the fee validate computed, given a non-negative fee |
| ModifySupplyActuator.IncreaseAddsAmount | ModifySupplyActuator.java:59-62 | a validated increase credits the customer and the total supply with exactly the amount |
| ModifySupplyActuator.DecreaseRemovesAmount | ModifySupplyActuator.java:63-66 | a validated decrease debits the customer and the total supply by exactly the amount |
| ModifySupplyActuator.FailedExecuteKeepsCreatedAccount | ModifySupplyActuator.java:41-74 | when the owner cannot pay for the new account, execute fails with the creation fee, leaves the supply alone and keeps the created account |
| ProposalCreateActuator.CheckRange | ProposalCreateActuator.java:143-147 | passes exactly when the value parses into [lo, hi]; otherwise gives the number-format or the bad-value error |
| ProposalCreateActuator.CheckOne | ProposalCreateActuator.java:193-198 | passes exactly when the value parses to 1; otherwise gives the number-format or the only-one error |
| ProposalCreateActuator.ValidKey | ProposalCreateActuator.java:324-326 | a valid id is non-negative and, with fewer than 2^31 chain parameters, unchanged by the `intValue()` narrowing the switches use |
| ProposalCreateActuator.ValidateValue | ProposalCreateActuator.java:140-312 | the validateValue switch accepts a value exactly when the rule table row of its id admits it: the range or the value 1, the required and excluded forks, the refusal after the GR removal, the same-token-name prerequisite, an existing valid supply address |
| ProposalCreateActuator.ValidateEntries | ProposalCreateActuator.java:130-135 | passes exactly when every entry has a valid id and a value validateValue accepts; a bad first id gives BadParameterId |
| ProposalCreateActuator.Validate | ProposalCreateActuator.java:80-138 | passes exactly when the contract decodes, the owner is a valid, existing witness, the map is non-empty and every entry is admitted; an empty map is refused exactly when the proposer checks pass |
| ProposalCreateActuator.CalcFee | ProposalCreateActuator.java:319-322 | creating a proposal costs no fee, so execute records fee 0 |
| ProposalCreateActuator.Rounds | ProposalCreateActuator.java:56-59 | the grid index lands strictly after the deadline, at most one interval after it when the deadline is not before the next maintenance, and less than two otherwise |
| ProposalCreateActuator.ExpirationTime | ProposalCreateActuator.java:52-60 | the expiration is strictly after the deadline and less than two intervals after it, at most one when the deadline is not before the next maintenance |
| ProposalCreateActuator.Execute | ProposalCreateActuator.java:33-77 | stores the new proposal under latestProposalNum + 1 and saves that id, or on a decoding failure records FAILED and changes nothing; accounts are untouched |
| ProposalCreateActuator.NewProposalIsScheduled | ProposalCreateActuator.java:38-60 | the new proposal is pending, carries the next id, the proposer, the parameters and the head block time, and expires on the maintenance grid after now + lifetime |
| ProposalCreateActuator.CreateKeepsIndexed | ProposalCreateActuator.java:38-68 | creating a proposal extends the indexed range of the store by the new id |
| ProposalCreateActuator.MaxCpuTimeBounds | ProposalCreateActuator.java:187-192 | parameter 13 accepts the decimal text of v exactly when 10 <= v <= 100 |
| ProposalCreateActuator.MaxCpuTimeExamples | ProposalCreateActuator.java:187-192 | parameter 13 refuses "9" and "101" with the bad-value error and accepts "50" |
| ProposalController.ApplyParameter | ProposalController.java:102-213 | an entry fails exactly when its id is effective, numeric and the value does not parse, and then changes nothing; total supply, latest id and maintenance time are never written |
| ProposalController.ApplyParameterFrame | ProposalController.java:102-213 | an entry leaves every parameter outside the ones its case writes unchanged, and writes nothing for an unknown id or a one-shot switch already set |
| ProposalController.ApplyParameterWrites | ProposalController.java:198-209 | an effective entry stores the parsed value in each numeric parameter its case writes, including the fallthrough ones, and the hex-decoded value in the address ones |
| ProposalController.ApplyParameters | ProposalController.java:98-216 | applying a map never writes total supply, latest id or maintenance time |
| ProposalController.ApplyParametersFrame | ProposalController.java:144-197 | applying a map never changes a one-shot switch already set, nor any parameter no entry writes |
| ProposalController.FailureStops | ProposalController.java:100-104 | once an entry fails to parse, the entries after it are not applied |
| ProposalController.ResolveProposal | ProposalController.java:75-96 | with most approvals the dynamic properties become those of applying the proposal's parameter map; resolution aborts exactly when that application hits a parse failure, leaving the proposal store unchanged; otherwise the proposal is stored APPROVED exactly when it has most approvals, DISAPPROVED otherwise, with nothing else changed; a disapproval leaves the parameters alone |
| ProposalController.ApprovedIntervalExample | ProposalController.java:78-86 | approving a proposal with map {0: "100000"} stores it APPROVED and sets the maintenance interval to 100000, changing no other property |
| ProposalController.ProcessFrom | ProposalController.java:39-71 | the scan keeps the set of stored proposal ids and never writes the maintenance time, total supply or latest id |
| ProposalController.ScanFrame | ProposalController.java:39-71 | the scan keeps the indexing of ids 1..n and touches no proposal outside 1..n |
| ProposalController.ScanKeepsOneShots | ProposalController.java:144-197 | however many approved proposals the scan applies, a one-shot switch (10, 20, 21) already set keeps its value |
| ProposalController.ScanOnlyResolves | ProposalController.java:56-70 | the only change to a stored proposal is resolving an open, expired one to a voted state |
| ProposalController.ScanSkips | ProposalController.java:56-70 | at a canceled or unexpired proposal the scan continues with the next lower id |
| ProposalController.ScanResolves | ProposalController.java:62-67 | at an open, expired proposal the scan resolves it and continues below it, or ends when resolution aborted |
| ProposalController.ScanStopsAtProcessed | ProposalController.java:48-54 | a processed proposal and every lower id are left as they were |
| ProposalController.ScanResolvesExpired | ProposalController.java:62-67 | an open, expired proposal above every processed one ends APPROVED or DISAPPROVED according to most approvals, unless the scan aborted |
| ProposalController.ScanSkipsClosed | ProposalController.java:56-70 | canceled and unexpired proposals are left as they were |
| ProposalController.ScanIdempotent | ProposalController.java:39-71 | after a completed scan a second scan changes nothing |
| ProposalController.MaintenanceIntervalExample | ProposalController.java:103-105 | parameter 0 with text "100000" sets the maintenance interval to exactly 100000 and nothing else |
| ProposalController.PermissionFeeFallsThrough | ProposalController.java:198-207 | parameter 22 also sets the multi-signature fee and, hex-decoded, the increase-supply address |
| ProposalController.EntryOrderMatters | ProposalController.java:198-207 | because of the fallthrough, whichever of parameters 22 and 24 comes later decides the increase-supply address |
| ProposalController.ValidatedEntryApplies | ProposalController.java:102-213 | a value validation accepted applies without a parse failure, for every id except 11 and 12 |
| ProposalController.UnparsedEnergyFeeAborts | ProposalController.java:150-153 | the value "x" for parameter 11 passes validation and makes setDynamicParameters throw |
| ProposalController.SetDynamicParameters | ProposalController.java:98-216 | the new dynamic properties are those of `ApplyParameters` over the entries, and the method reports false exactly when a value failed to parse |
| ProposalController.ProcessProposal | ProposalController.java:75-96 | the new stores are those of `ResolveProposal`, and the method reports false exactly when it aborted |
| ProposalController.ProcessProposals | ProposalController.java:28-73 | the new stores are those of `ProcessFrom` from latestProposalNum; with latestProposalNum 0 nothing changes |

## Left out

- Protobuf decoding: the unpacked contract is an input (`Packed`). A wrong type or a corrupt payload is a constructor of it, not a byte decoder.
- The `deposit` branches of ProposalCreateActuator: only the direct `dbManager` path is modelled. Deposits are a separate execution mode whose store is not part of this model.
- The `dbManager == null` check in both validate methods: the manager is always present here.
- Logging, readable address rendering and exception message texts: each error is a constructor of `ValidateError`.
- `AccountCapsule` contents other than the balance (account type, permissions, creation time): the account store is a map from address to balance.
- `Manager.adjustBalance` is not part of this model. `Adjust` assumes the following: it fails only when a debit exceeds the balance; an absent account reads as 0; the result is stored.
- 64-bit overflow of fees, total supply, the proposal id and the expiration arithmetic: these use unbounded integers. Only `Long.parseLong` enforces the 64-bit range.
- `Long.parseLong` accepts non-ASCII Unicode digits in Java. The model accepts only ASCII digits.
- `ProposalCapsule.hasExpired` and `hasMostApprovals` are given functions. The majority rule (strictly more than half of the active witnesses) is therefore not stated.
- The length of `ChainParameters` is a parameter (`chainParameterCount`).
- Side effects of the dynamic-property save methods beyond the stored field are not part of this model.
- ProcessProposals: requires every id 1..latestProposalNum to be stored under its own id. On a failed store read the source logs and retries the same id forever, which the model does not represent.
- ModifySupplyActuator.Execute: requires a contract to be present. A null contract makes the source throw NullPointerException, which is not a modelled outcome.
- ProposalCreateActuator.Execute: requires a contract to be present, for the same reason. It also requires a positive maintenance interval, because the source's division throws ArithmeticException on 0; validation keeps parameter 0 at 81000 or more.
- ModifySupplyActuator.ExecuteConservesSupply: requires a non-negative account-creation fee. With a negative fee the owner is credited first, the blackhole debit can then fail, and the owner's credit remains. Validation of parameter 7 keeps the fee in [0, 10^17].
- ModifySupplyActuator.IncreaseAddsAmount: requires the customer to differ from the blackhole account. When they coincide, the customer also receives the fee.
- ModifySupplyActuator.ValidatedExecuteSucceeds: requires a non-negative required fee. With a negative fee the blackhole debit can fail; the validation of parameter 7 keeps the creation fee non-negative.
