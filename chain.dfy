/**
  State shared by the actuators and the governance controller of a ledger node:
  the account store, the dynamic properties store, the proposal store, and the
  read-only collaborators (witness stores, head block time, fork controller,
  fee-sink account) that they consult.
 */
module Chain {

  newtype byte = x: int | 0 <= x < 256

  /** An account address, as the raw bytes the stores are keyed by. */
  type Address = seq<byte>

  datatype Option<T> = None | Some(value: T)

  /** Pass, or the first error a validation found. */
  datatype Outcome<E> = Pass | Fail(error: E)

  /** Protocol-upgrade milestones whose activation the fork controller reports. */
  datatype Fork = EnergyLimit | Version3_2_2 | Version3_5

  datatype ProposalState = Pending | Approved | Disapproved | Canceled

  /** A governance proposal; `parameters` lists (parameter id, value text) in the map's iteration order. */
  datatype Proposal = Proposal(
    id: int,
    proposer: Address,
    parameters: seq<(int, string)>,
    createTime: int,
    expirationTime: int,
    state: ProposalState,
    approvals: seq<Address>)

  /** ProposalCapsule.hasProcessed: the proposal reached a voted terminal state. */
  predicate HasProcessed(p: Proposal)
  {
    p.state == Approved || p.state == Disapproved
  }

  /** ProposalCapsule.hasCanceled. */
  predicate HasCanceled(p: Proposal)
  {
    p.state == Canceled
  }

  /** The dynamic properties store: governance-tunable values and the chain counters. */
  datatype DynamicProperties = DynamicProperties(
    maintenanceTimeInterval: int,
    accountUpgradeCost: int,
    createAccountFee: int,
    transactionFee: int,
    assetIssueFee: int,
    witnessPayPerBlock: int,
    witnessStandbyAllowance: int,
    createNewAccountFeeInSystemContract: int,
    createNewAccountGasRate: int,
    allowCreationOfContracts: int,
    removeThePowerOfTheGr: int,
    energyFee: int,
    exchangeCreateFee: int,
    maxCpuTimeOfOneTx: int,
    allowUpdateAccountName: int,
    allowSameTokenName: int,
    allowDelegateResource: int,
    totalEnergyLimit: int,
    allowTvmTransferTrc10: int,
    totalEnergyLimit2: int,
    allowMultiSign: int,
    allowAdaptiveEnergy: int,
    updateAccountPermissionFee: int,
    multiSignFee: int,
    increaseSupplyAddress: Address,
    decreaseSupplyAddress: Address,
    totalSupply: int,
    latestProposalNum: int,
    nextMaintenanceTime: int)

  /**
    Collaborators whose code is not part of this model, taken as given functions:
    address validation, hex decoding, the number of chain parameter ids, the
    configured proposal lifetime, and the two ProposalCapsule queries whose
    bodies are not shown.
   */
  datatype Externals = Externals(
    addressValid: Address -> bool,
    fromHexString: string -> Address,
    chainParameterCount: int,
    proposalExpireTime: int,
    hasExpired: (Proposal, int) -> bool,
    hasMostApprovals: (Proposal, seq<Address>) -> bool)

  /** A contract as the actuator receives it, before and after unpacking. */
  datatype Packed<C> = NoContract | OtherType | Corrupt | Contract(contract: C)

  /** Transaction result codes (the source spells the first one SUCESS). */
  datatype Code = Success | Failed

  /** What `ret.setStatus(fee, code)` records. */
  datatype Receipt = Receipt(fee: int, code: Code)

  datatype ExecutionError = BalanceInsufficient | InvalidProtocolBuffer

  /** The balance an address reads as: absent accounts read as an empty one. */
  function Balance(accounts: map<Address, int>, a: Address): int
  {
    if a in accounts then accounts[a] else 0
  }

  /**
    Manager.adjustBalance: add `delta` to the balance at `address`, failing
    when a debit exceeds the balance. An absent account is read as balance 0
    and stored afterwards.
   */
  function Adjust(accounts: map<Address, int>, address: Address, delta: int): (r: Option<map<Address, int>>)
    ensures r.Some? <==> (delta >= 0 || Balance(accounts, address) >= -delta)
  {
    var balance := Balance(accounts, address);
    if delta < 0 && balance < -delta then None
    else Some(accounts[address := balance + delta])
  }

  /** A successful adjustBalance changes only the balance at `address`, by exactly `delta`. */
  lemma AdjustEffect(accounts: map<Address, int>, address: Address, delta: int, a: Address)
    requires Adjust(accounts, address, delta).Some?
    ensures var after := Adjust(accounts, address, delta).value;
            && after.Keys == accounts.Keys + {address}
            && Balance(after, a) == Balance(accounts, a) + (if a == address then delta else 0)
  {
  }

  /** Every proposal id from 1 to n is stored under its own id. */
  predicate Indexed(proposals: map<int, Proposal>, n: int)
    decreases n
  {
    n <= 0 || (n in proposals && proposals[n].id == n && Indexed(proposals, n - 1))
  }

  /** Ids 1..n stay indexed when the store changes only above n or keeps the id stored there. */
  lemma {:induction false} IndexedUpdate(proposals: map<int, Proposal>, n: int, k: int, p: Proposal)
    requires Indexed(proposals, n)
    requires k > n || p.id == k
    ensures Indexed(proposals[k := p], n)
    decreases n
  {
    if n > 0 {
      IndexedUpdate(proposals, n - 1, k, p);
    }
  }

  /** Deterministic choice of an element of a non-empty set of addresses. */
  ghost function Pick(s: set<Address>): (a: Address)
    requires s != {}
    ensures a in s
  {
    var a :| a in s; a
  }

  /** The sum of the balances stored under `keys`. */
  ghost function SumKeys(accounts: map<Address, int>, keys: set<Address>): int
    requires keys <= accounts.Keys
    decreases keys
  {
    if keys == {} then 0
    else var a := Pick(keys); accounts[a] + SumKeys(accounts, keys - {a})
  }

  /** The sum of all balances in the account store. */
  ghost function Total(accounts: map<Address, int>): int
  {
    SumKeys(accounts, accounts.Keys)
  }

  /** The sum does not depend on which key is taken out first. */
  lemma {:induction false} SumKeysRemove(accounts: map<Address, int>, keys: set<Address>, a: Address)
    requires keys <= accounts.Keys && a in keys
    ensures SumKeys(accounts, keys) == accounts[a] + SumKeys(accounts, keys - {a})
    decreases keys
  {
    var b := Pick(keys);
    if b != a {
      SumKeysRemove(accounts, keys - {b}, a);
      SumKeysRemove(accounts, keys - {a}, b);
      assert keys - {b} - {a} == keys - {a} - {b};
    }
  }

  /** Two stores that agree on `keys` have the same sum over them. */
  lemma {:induction false} SumKeysFrame(m1: map<Address, int>, m2: map<Address, int>, keys: set<Address>)
    requires keys <= m1.Keys && keys <= m2.Keys
    requires forall k :: k in keys ==> m1[k] == m2[k]
    ensures SumKeys(m1, keys) == SumKeys(m2, keys)
    decreases keys
  {
    if keys != {} {
      SumKeysFrame(m1, m2, keys - {Pick(keys)});
    }
  }

  /** Writing one balance changes the sum by the difference. */
  lemma TotalUpdate(accounts: map<Address, int>, a: Address, v: int)
    ensures Total(accounts[a := v]) == Total(accounts) - Balance(accounts, a) + v
  {
    var updated := accounts[a := v];
    SumKeysRemove(updated, updated.Keys, a);
    assert updated.Keys - {a} == accounts.Keys - {a};
    SumKeysFrame(updated, accounts, accounts.Keys - {a});
    if a in accounts {
      SumKeysRemove(accounts, accounts.Keys, a);
    } else {
      assert accounts.Keys - {a} == accounts.Keys;
    }
  }

  /** A successful adjustBalance moves the sum of balances by exactly `delta`. */
  lemma AdjustShiftsTotal(accounts: map<Address, int>, address: Address, delta: int)
    requires Adjust(accounts, address, delta).Some?
    ensures Total(Adjust(accounts, address, delta).value) == Total(accounts) + delta
  {
    TotalUpdate(accounts, address, Balance(accounts, address) + delta);
  }

  /**
    The explicit state handle of the node: the three stores the core writes
    (as fields the operations reassign) and the collaborators it only reads.
   */
  class Manager {
    var accounts: map<Address, int>
    var props: DynamicProperties
    var proposals: map<int, Proposal>
    const blackhole: Address
    const witnesses: set<Address>
    const activeWitnesses: seq<Address>
    const headBlockTimeStamp: int
    const passedForks: set<Fork>

    constructor (accounts: map<Address, int>, props: DynamicProperties, proposals: map<int, Proposal>,
                 blackhole: Address, witnesses: set<Address>, activeWitnesses: seq<Address>,
                 headBlockTimeStamp: int, passedForks: set<Fork>)
      ensures this.accounts == accounts && this.props == props && this.proposals == proposals
      ensures this.blackhole == blackhole && this.witnesses == witnesses
      ensures this.activeWitnesses == activeWitnesses
      ensures this.headBlockTimeStamp == headBlockTimeStamp && this.passedForks == passedForks
    {
      this.accounts := accounts;
      this.props := props;
      this.proposals := proposals;
      this.blackhole := blackhole;
      this.witnesses := witnesses;
      this.activeWitnesses := activeWitnesses;
      this.headBlockTimeStamp := headBlockTimeStamp;
      this.passedForks := passedForks;
    }

    /** Manager.adjustBalance; `ok` is false where the source throws BalanceInsufficientException. */
    method AdjustBalance(address: Address, delta: int) returns (ok: bool)
      modifies this
      ensures ok == Adjust(old(accounts), address, delta).Some?
      ensures accounts == if ok then Adjust(old(accounts), address, delta).value else old(accounts)
      ensures props == old(props) && proposals == old(proposals)
    {
      var balance := if address in accounts then accounts[address] else 0;
      if delta < 0 && balance < -delta {
        return false;
      }
      accounts := accounts[address := balance + delta];
      ok := true;
    }
  }
}
