/**
  The proposal-create actuator: a witness proposes new values for chain
  parameters. Validation checks the proposer and every (id, value) entry
  against the per-parameter rules; execution allocates the next proposal id
  and stores a pending proposal whose expiration is aligned to the
  maintenance grid.
 */
module ProposalCreateActuator {
  import opened Chain
  import opened JavaLong

  datatype ProposalCreateContract = ProposalCreateContract(
    ownerAddress: Address,
    parameters: seq<(int, string)>)

  datatype ValidateError =
    | ContractMissing
    | ContractTypeError
    | DecodeError
    | InvalidAddress
    | AccountNotExists
    | WitnessNotExists
    | NoParameter
    | BadParameterId
    | BadParameterValue
    | OnlyOneAllowed
    | AlreadyExecuted
    | PrerequisiteNotApproved
    | InvalidSupplyAddress
    | SupplyAccountNotExists
    | NumberFormat

  /** Upper bound of the fee-like parameters 1-8, 17 and 19. */
  const MaxParameterValue: int := 100_000_000_000_000_000

  /** Upper bound of the permission and multi-signature fees, parameters 22 and 23. */
  const MaxPermissionFee: int := 100_000_000_000

  /**
    validKey: the id names one of the chain parameters. With fewer than 2^31
    parameters a valid id is unchanged by the `intValue()` narrowing that
    validateValue and setDynamicParameters switch on.
   */
  predicate ValidKey(ext: Externals, idx: int): (b: bool)
    ensures b ==> 0 <= idx
    ensures b && ext.chainParameterCount <= 0x8000_0000 ==> IntValue(idx) == idx
  {
    0 <= idx < ext.chainParameterCount
  }

  /** Parse the value, then reject it outside [lo, hi]. */
  function CheckRange(value: string, lo: int, hi: int): (r: Outcome<ValidateError>)
    ensures r.Pass? <==> ParseLong(value).Some? && lo <= ParseLong(value).value <= hi
    ensures r.Fail? ==> r.error == (if ParseLong(value).None? then NumberFormat else BadParameterValue)
  {
    match ParseLong(value)
    case None => Fail(NumberFormat)
    case Some(v) => if v < lo || v > hi then Fail(BadParameterValue) else Pass
  }

  /** Parse the value, then reject anything but 1. */
  function CheckOne(value: string): (r: Outcome<ValidateError>)
    ensures r.Pass? <==> ParseLong(value) == Some(1)
    ensures r.Fail? ==> r.error == (if ParseLong(value).None? then NumberFormat else OnlyOneAllowed)
  {
    match ParseLong(value)
    case None => Fail(NumberFormat)
    case Some(v) => if v != 1 then Fail(OnlyOneAllowed) else Pass
  }

  /** Fork gate: the named milestone must have passed. */
  function RequireFork(forks: set<Fork>, f: Fork, then_: Outcome<ValidateError>): Outcome<ValidateError>
  {
    if f !in forks then Fail(BadParameterId) else then_
  }

  /**
    validateValue: the per-id switch. NumberFormat stands for the
    NumberFormatException Long.parseLong throws on text that is not a number.
    It accepts a value exactly when the rule table row of the id admits it.
   */
  function ValidateValue(ext: Externals, forks: set<Fork>, accounts: map<Address, int>,
                         props: DynamicProperties, key: int, value: string): (r: Outcome<ValidateError>)
    ensures r.Pass? <==> Admits(ext, forks, accounts, props, RuleFor(IntValue(key)), value)
  {
    var k := IntValue(key);
    if k == 0 then CheckRange(value, 3 * 27 * 1000, 24 * 3600 * 1000)
    else if 1 <= k <= 8 then CheckRange(value, 0, MaxParameterValue)
    else if k == 9 then CheckOne(value)
    else if k == 10 then
      if props.removeThePowerOfTheGr == -1 then Fail(AlreadyExecuted) else CheckOne(value)
    else if k == 11 || k == 12 then Pass
    else if k == 13 then CheckRange(value, 10, 100)
    else if k == 14 || k == 15 || k == 16 then CheckOne(value)
    else if k == 17 then
      RequireFork(forks, EnergyLimit,
        if Version3_2_2 in forks then Fail(BadParameterId) else CheckRange(value, 0, MaxParameterValue))
    else if k == 18 then
      (match CheckOne(value)
       case Fail(e) => Fail(e)
       case Pass => if props.allowSameTokenName == 0 then Fail(PrerequisiteNotApproved) else Pass)
    else if k == 19 then RequireFork(forks, Version3_2_2, CheckRange(value, 0, MaxParameterValue))
    else if k == 20 || k == 21 then RequireFork(forks, Version3_5, CheckOne(value))
    else if k == 22 || k == 23 then RequireFork(forks, Version3_5, CheckRange(value, 0, MaxPermissionFee))
    else if k == 24 || k == 25 then
      var supplyAddress := ext.fromHexString(value);
      if !ext.addressValid(supplyAddress) then Fail(InvalidSupplyAddress)
      else if supplyAddress !in accounts then Fail(SupplyAccountNotExists)
      else Pass
    else Pass
  }

  /** What a parameter's value must be, in the declarative rule table. */
  datatype ValueRule =
    | InRange(lo: int, hi: int)
    | OnlyOne
    | AnyText
    | ExistingAccountHex

  /**
    One row of the rule table: the value rule, the milestones that must have
    passed and those that must not, whether the parameter is refused once the
    one-shot "remove the power of the GR" has run (stored -1), and whether it
    needs AllowSameTokenName to be approved first.
   */
  datatype ParameterRule = ParameterRule(
    value: ValueRule,
    requiredForks: set<Fork>,
    excludedForks: set<Fork>,
    refusedAfterRun: bool,
    needsSameTokenName: bool)

  function Plain(value: ValueRule): ParameterRule
  {
    ParameterRule(value, {}, {}, false, false)
  }

  /** The rule table, one row per parameter id. */
  function RuleFor(k: int): ParameterRule
  {
    if k == 0 then Plain(InRange(81_000, 86_400_000))
    else if 1 <= k <= 8 then Plain(InRange(0, MaxParameterValue))
    else if k == 9 || k == 14 || k == 15 || k == 16 then Plain(OnlyOne)
    else if k == 10 then ParameterRule(OnlyOne, {}, {}, true, false)
    else if k == 13 then Plain(InRange(10, 100))
    else if k == 17 then ParameterRule(InRange(0, MaxParameterValue), {EnergyLimit}, {Version3_2_2}, false, false)
    else if k == 18 then ParameterRule(OnlyOne, {}, {}, false, true)
    else if k == 19 then ParameterRule(InRange(0, MaxParameterValue), {Version3_2_2}, {}, false, false)
    else if k == 20 || k == 21 then ParameterRule(OnlyOne, {Version3_5}, {}, false, false)
    else if k == 22 || k == 23 then ParameterRule(InRange(0, MaxPermissionFee), {Version3_5}, {}, false, false)
    else if k == 24 || k == 25 then Plain(ExistingAccountHex)
    else Plain(AnyText)
  }

  predicate ValueAdmits(ext: Externals, accounts: map<Address, int>, rule: ValueRule, value: string)
  {
    match rule
    case InRange(lo, hi) => ParseLong(value).Some? && lo <= ParseLong(value).value <= hi
    case OnlyOne => ParseLong(value) == Some(1)
    case AnyText => true
    case ExistingAccountHex =>
      ext.addressValid(ext.fromHexString(value)) && ext.fromHexString(value) in accounts
  }

  /** A value is admitted by a rule row in the current chain state. */
  predicate Admits(ext: Externals, forks: set<Fork>, accounts: map<Address, int>, props: DynamicProperties,
                   rule: ParameterRule, value: string)
  {
    && rule.requiredForks <= forks
    && rule.excludedForks !! forks
    && (rule.refusedAfterRun ==> props.removeThePowerOfTheGr != -1)
    && (rule.needsSameTokenName ==> props.allowSameTokenName != 0)
    && ValueAdmits(ext, accounts, rule.value, value)
  }

  /** The loop over the parameter map: the first entry with a bad id or a bad value decides. */
  function ValidateEntries(ext: Externals, forks: set<Fork>, accounts: map<Address, int>,
                           props: DynamicProperties, entries: seq<(int, string)>): (r: Outcome<ValidateError>)
    ensures r.Pass? <==> forall i :: 0 <= i < |entries| ==>
              ValidKey(ext, entries[i].0) && ValidateValue(ext, forks, accounts, props, entries[i].0, entries[i].1).Pass?
    ensures |entries| > 0 && !ValidKey(ext, entries[0].0) ==> r == Fail(BadParameterId)
    ensures r != Fail(NoParameter)
    decreases |entries|
  {
    if entries == [] then Pass
    else if !ValidKey(ext, entries[0].0) then Fail(BadParameterId)
    else match ValidateValue(ext, forks, accounts, props, entries[0].0, entries[0].1)
      case Fail(e) => Fail(e)
      case Pass => ValidateEntries(ext, forks, accounts, props, entries[1..])
  }

  /** validate: proposer checks, then the parameter map. */
  function Validate(ext: Externals, forks: set<Fork>, accounts: map<Address, int>, witnesses: set<Address>,
                    props: DynamicProperties, packed: Packed<ProposalCreateContract>): (r: Outcome<ValidateError>)
    ensures r.Pass? <==>
              && packed.Contract?
              && ext.addressValid(packed.contract.ownerAddress)
              && packed.contract.ownerAddress in accounts
              && packed.contract.ownerAddress in witnesses
              && |packed.contract.parameters| > 0
              && forall i :: 0 <= i < |packed.contract.parameters| ==>
                   var (key, value) := packed.contract.parameters[i];
                   ValidKey(ext, key) && Admits(ext, forks, accounts, props, RuleFor(IntValue(key)), value)
    ensures packed.Contract? && !ext.addressValid(packed.contract.ownerAddress) ==> r == Fail(InvalidAddress)
    ensures r == Fail(NoParameter) <==>
              && packed.Contract?
              && ext.addressValid(packed.contract.ownerAddress)
              && packed.contract.ownerAddress in accounts
              && packed.contract.ownerAddress in witnesses
              && |packed.contract.parameters| == 0
  {
    match packed
    case NoContract => Fail(ContractMissing)
    case OtherType => Fail(ContractTypeError)
    case Corrupt => Fail(DecodeError)
    case Contract(c) =>
      if !ext.addressValid(c.ownerAddress) then Fail(InvalidAddress)
      else if c.ownerAddress !in accounts then Fail(AccountNotExists)
      else if c.ownerAddress !in witnesses then Fail(WitnessNotExists)
      else if |c.parameters| == 0 then Fail(NoParameter)
      else
        ValidateEntries(ext, forks, accounts, props, c.parameters)
  }

  /** calcFee: proposals cost no fee. */
  function CalcFee(): (fee: int)
    ensures fee == 0
  {
    0
  }

  /**
    The number of maintenance intervals after the next maintenance time at
    which a proposal whose lifetime ends at `deadline` expires, computed with
    Java's truncating division: the first grid point strictly after the
    deadline when the deadline is at or after the next maintenance time, and
    one of the first two grid points after it otherwise.
   */
  function Rounds(deadline: int, nextMaintenanceTime: int, interval: int): (n: int)
    requires interval > 0
    ensures nextMaintenanceTime + n * interval > deadline
    ensures deadline >= nextMaintenanceTime ==> nextMaintenanceTime + (n - 1) * interval <= deadline
    ensures nextMaintenanceTime + (n - 2) * interval < deadline
  {
    var round := Quot(deadline - nextMaintenanceTime, interval);
    assert (round + 1) * interval == round * interval + interval;
    assert (round - 1) * interval == round * interval - interval;
    round + 1
  }

  /** The expiration time: the maintenance grid point `Rounds` picks. */
  function ExpirationTime(deadline: int, nextMaintenanceTime: int, interval: int): (t: int)
    requires interval > 0
    ensures t > deadline
    ensures deadline >= nextMaintenanceTime ==> t - interval <= deadline
    ensures t - 2 * interval < deadline
  {
    var n := Rounds(deadline, nextMaintenanceTime, interval);
    assert (n - 1) * interval == n * interval - interval;
    assert (n - 2) * interval == n * interval - 2 * interval;
    nextMaintenanceTime + n * interval
  }

  /** The pending proposal execute stores for a contract. */
  function NewProposal(ext: Externals, now: int, props: DynamicProperties, c: ProposalCreateContract): Proposal
    requires props.maintenanceTimeInterval > 0
  {
    Proposal(
      props.latestProposalNum + 1,
      c.ownerAddress,
      c.parameters,
      now,
      ExpirationTime(now + ext.proposalExpireTime, props.nextMaintenanceTime, props.maintenanceTimeInterval),
      Pending,
      [])
  }

  /**
    execute: allocate id latestProposalNum + 1, store the proposal under it
    with the head block time as creation time, and save the new latest id.
   */
  method Execute(m: Manager, ext: Externals, packed: Packed<ProposalCreateContract>)
    returns (ret: Receipt, err: Option<ExecutionError>)
    requires !packed.NoContract?
    requires m.props.maintenanceTimeInterval > 0
    modifies m
    ensures m.accounts == old(m.accounts)
    ensures packed.Contract? ==>
              var id := old(m.props.latestProposalNum) + 1;
              && m.proposals == old(m.proposals)[id := NewProposal(ext, m.headBlockTimeStamp, old(m.props), packed.contract)]
              && m.props == old(m.props).(latestProposalNum := id)
              && ret == Receipt(CalcFee(), Success) && err.None?
    ensures !packed.Contract? ==>
              && m.proposals == old(m.proposals) && m.props == old(m.props)
              && ret == Receipt(CalcFee(), Failed) && err == Some(InvalidProtocolBuffer)
  {
    var fee := CalcFee();
    if !packed.Contract? {
      return Receipt(fee, Failed), Some(InvalidProtocolBuffer);
    }
    var c := packed.contract;
    var id := m.props.latestProposalNum + 1;
    var now := m.headBlockTimeStamp;
    var maintenanceTimeInterval := m.props.maintenanceTimeInterval;
    var currentMaintenanceTime := m.props.nextMaintenanceTime;
    var now3 := now + ext.proposalExpireTime;
    var round := Quot(now3 - currentMaintenanceTime, maintenanceTimeInterval);
    var expirationTime := currentMaintenanceTime + (round + 1) * maintenanceTimeInterval;
    var proposal := Proposal(id, c.ownerAddress, c.parameters, now, expirationTime, Pending, []);
    m.proposals := m.proposals[id := proposal];
    m.props := m.props.(latestProposalNum := id);
    ret, err := Receipt(fee, Success), None;
  }

  /**
    A created proposal is pending, carries the next id and the head block time,
    and expires on the maintenance grid strictly after now + proposalExpireTime.
   */
  lemma NewProposalIsScheduled(ext: Externals, now: int, props: DynamicProperties, c: ProposalCreateContract)
    requires props.maintenanceTimeInterval > 0
    ensures var p := NewProposal(ext, now, props, c);
            && p.id == props.latestProposalNum + 1 && p.id > props.latestProposalNum
            && p.state == Pending && p.createTime == now
            && p.parameters == c.parameters && p.proposer == c.ownerAddress
            && p.expirationTime == props.nextMaintenanceTime
                 + Rounds(now + ext.proposalExpireTime, props.nextMaintenanceTime, props.maintenanceTimeInterval)
                   * props.maintenanceTimeInterval
            && p.expirationTime > now + ext.proposalExpireTime
            && p.expirationTime - 2 * props.maintenanceTimeInterval < now + ext.proposalExpireTime
  {
  }

  /**
    Creating proposals keeps the store indexed: if ids 1..latestProposalNum
    are stored under their own ids, so are ids 1..latestProposalNum + 1 after
    execute, which is what the maintenance scan relies on.
   */
  lemma CreateKeepsIndexed(ext: Externals, now: int, proposals: map<int, Proposal>,
                           props: DynamicProperties, c: ProposalCreateContract)
    requires props.maintenanceTimeInterval > 0
    requires props.latestProposalNum >= 0 && Indexed(proposals, props.latestProposalNum)
    ensures var id := props.latestProposalNum + 1;
            Indexed(proposals[id := NewProposal(ext, now, props, c)], id)
  {
    var id := props.latestProposalNum + 1;
    IndexedUpdate(proposals, id - 1, id, NewProposal(ext, now, props, c));
  }

  /** For parameter 13 the decimal text of v is accepted exactly when 10 <= v <= 100. */
  lemma MaxCpuTimeBounds(ext: Externals, forks: set<Fork>, accounts: map<Address, int>,
                         props: DynamicProperties, v: int)
    requires MinLong <= v <= MaxLong
    ensures ValidateValue(ext, forks, accounts, props, 13, Decimal(v)).Pass? <==> 10 <= v <= 100
  {
    ParseDecimal(v);
  }

  /** The boundary cases of parameter 13: 9 and 101 are refused, 50 is accepted. */
  lemma MaxCpuTimeExamples(ext: Externals, forks: set<Fork>, accounts: map<Address, int>, props: DynamicProperties)
    ensures ValidateValue(ext, forks, accounts, props, 13, "9") == Fail(BadParameterValue)
    ensures ValidateValue(ext, forks, accounts, props, 13, "101") == Fail(BadParameterValue)
    ensures ValidateValue(ext, forks, accounts, props, 13, "50").Pass?
  {
    ParseDecimal(9);
    ParseDecimal(101);
    ParseDecimal(50);
    assert Decimal(9) == "9";
    assert Decimal(101) == "101";
    assert Decimal(50) == "50";
  }
}
