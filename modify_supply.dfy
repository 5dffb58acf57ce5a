/**
  The supply-modification actuator: a privileged owner mints `amount` into a
  customer account (increase) or burns it from one (decrease), paying the fee
  into the fee-sink (blackhole) account, while the persisted total supply
  moves by the same amount.
 */
module ModifySupplyActuator {
  import opened Chain

  datatype ModifySupplyContract = ModifySupplyContract(
    ownerAddress: Address,
    customerAddress: Address,
    amount: int,
    isIncrease: bool)

  datatype ValidateError =
    | ContractMissing
    | ContractTypeError
    | DecodeError
    | InvalidOwnerAddress
    | OwnerNotExists
    | NotIncreaseAddress
    | NotDecreaseAddress
    | InvalidCustomerAddress
    | CustomerNotExists
    | InsufficientFee
    | NonPositiveAmount
    | InsufficientBalance

  /** calcFee: this contract type has no base fee. */
  function CalcFee(): (fee: int)
    ensures fee == 0
  {
    0
  }

  /** The only address allowed to move total supply in the requested direction. */
  function Authority(props: DynamicProperties, isIncrease: bool): Address
  {
    if isIncrease then props.increaseSupplyAddress else props.decreaseSupplyAddress
  }

  /**
    The fee the owner pays: calcFee, plus the system account-creation fee when
    the customer account does not exist yet. Validate demands this term;
    ExecuteMovesBalances shows that execute charges the same.
   */
  function RequiredFee(accounts: map<Address, int>, props: DynamicProperties, c: ModifySupplyContract): int
  {
    CalcFee() + (if c.customerAddress in accounts then 0 else props.createNewAccountFeeInSystemContract)
  }

  /** The owner guards of validate hold: a valid, existing owner holding the authority for the direction. */
  predicate OwnerAuthorized(ext: Externals, accounts: map<Address, int>, props: DynamicProperties, c: ModifySupplyContract)
  {
    && ext.addressValid(c.ownerAddress)
    && c.ownerAddress in accounts
    && c.ownerAddress == Authority(props, c.isIncrease)
  }

  /** The customer guards hold too: a valid address, and an existing account for a decrease. */
  predicate CustomerReady(ext: Externals, accounts: map<Address, int>, props: DynamicProperties, c: ModifySupplyContract)
  {
    && OwnerAuthorized(ext, accounts, props, c)
    && ext.addressValid(c.customerAddress)
    && (c.isIncrease || c.customerAddress in accounts)
  }

  /** The fee guard holds too: the owner's balance covers the required fee. */
  predicate FeeCovered(ext: Externals, accounts: map<Address, int>, props: DynamicProperties, c: ModifySupplyContract)
  {
    && CustomerReady(ext, accounts, props, c)
    && accounts[c.ownerAddress] >= RequiredFee(accounts, props, c)
  }

  /** Everything validate demands of a decoded contract. */
  predicate Admissible(ext: Externals, accounts: map<Address, int>, props: DynamicProperties, c: ModifySupplyContract)
  {
    && FeeCovered(ext, accounts, props, c)
    && c.amount > 0
    && (!c.isIncrease ==> accounts[c.customerAddress] >= c.amount)
  }

  /** validate: the read-only guard chain, reporting the first check that fails. */
  function Validate(ext: Externals, accounts: map<Address, int>, props: DynamicProperties,
                    packed: Packed<ModifySupplyContract>): (r: Outcome<ValidateError>)
    ensures r.Pass? <==> packed.Contract? && Admissible(ext, accounts, props, packed.contract)
    ensures packed.Contract? && !ext.addressValid(packed.contract.ownerAddress) ==> r == Fail(InvalidOwnerAddress)
    ensures (packed.Contract? && ext.addressValid(packed.contract.ownerAddress)
             && packed.contract.ownerAddress !in accounts) ==> r == Fail(OwnerNotExists)
    ensures r == Fail(NotIncreaseAddress) <==>
              packed.Contract? && ext.addressValid(packed.contract.ownerAddress)
              && packed.contract.ownerAddress in accounts && packed.contract.isIncrease
              && packed.contract.ownerAddress != props.increaseSupplyAddress
    ensures r == Fail(NotDecreaseAddress) <==>
              packed.Contract? && ext.addressValid(packed.contract.ownerAddress)
              && packed.contract.ownerAddress in accounts && !packed.contract.isIncrease
              && packed.contract.ownerAddress != props.decreaseSupplyAddress
    ensures (packed.Contract? && OwnerAuthorized(ext, accounts, props, packed.contract)
             && !ext.addressValid(packed.contract.customerAddress)) ==> r == Fail(InvalidCustomerAddress)
    ensures r == Fail(CustomerNotExists) <==>
              packed.Contract? && OwnerAuthorized(ext, accounts, props, packed.contract)
              && ext.addressValid(packed.contract.customerAddress)
              && !packed.contract.isIncrease && packed.contract.customerAddress !in accounts
    ensures r == Fail(InsufficientFee) <==>
              packed.Contract? && CustomerReady(ext, accounts, props, packed.contract)
              && accounts[packed.contract.ownerAddress] < RequiredFee(accounts, props, packed.contract)
    ensures r == Fail(NonPositiveAmount) <==>
              packed.Contract? && FeeCovered(ext, accounts, props, packed.contract) && packed.contract.amount <= 0
    ensures r == Fail(InsufficientBalance) <==>
              packed.Contract? && FeeCovered(ext, accounts, props, packed.contract) && packed.contract.amount > 0
              && !packed.contract.isIncrease && accounts[packed.contract.customerAddress] < packed.contract.amount
    ensures packed.NoContract? ==> r == Fail(ContractMissing)
    ensures packed.OtherType? ==> r == Fail(ContractTypeError)
    ensures packed.Corrupt? ==> r == Fail(DecodeError)
  {
    match packed
    case NoContract => Fail(ContractMissing)
    case OtherType => Fail(ContractTypeError)
    case Corrupt => Fail(DecodeError)
    case Contract(c) =>
      if !ext.addressValid(c.ownerAddress) then Fail(InvalidOwnerAddress)
      else if c.ownerAddress !in accounts then Fail(OwnerNotExists)
      else if c.isIncrease && props.increaseSupplyAddress != c.ownerAddress then Fail(NotIncreaseAddress)
      else if !c.isIncrease && props.decreaseSupplyAddress != c.ownerAddress then Fail(NotDecreaseAddress)
      else if !ext.addressValid(c.customerAddress) then Fail(InvalidCustomerAddress)
      else if c.customerAddress !in accounts && !c.isIncrease then Fail(CustomerNotExists)
      else if accounts[c.ownerAddress] < RequiredFee(accounts, props, c) then Fail(InsufficientFee)
      else if c.amount <= 0 then Fail(NonPositiveAmount)
      else if !c.isIncrease && accounts[c.customerAddress] < c.amount then Fail(InsufficientBalance)
      else Pass
  }

  /** The account store and total supply after execute, with what it recorded and threw. */
  datatype Executed = Executed(
    accounts: map<Address, int>,
    totalSupply: int,
    receipt: Receipt,
    error: Option<ExecutionError>)

  /** The signed change execute applies to the customer and to the total supply. */
  function SupplyDelta(c: ModifySupplyContract): int
  {
    if c.isIncrease then c.amount else -c.amount
  }

  /**
    The three balance adjustments of execute, in order: owner pays the fee,
    the blackhole receives it, the customer is credited or debited; the first
    one that fails ends execute with FAILED.
   */
  function Settle(accounts: map<Address, int>, totalSupply: int, blackhole: Address,
                  c: ModifySupplyContract, fee: int): Executed
  {
    var charged := Adjust(accounts, c.ownerAddress, -fee);
    if charged.None? then
      Executed(accounts, totalSupply, Receipt(fee, Failed), Some(BalanceInsufficient))
    else
      var burned := Adjust(charged.value, blackhole, fee);
      if burned.None? then
        Executed(charged.value, totalSupply, Receipt(fee, Failed), Some(BalanceInsufficient))
      else
        var moved := Adjust(burned.value, c.customerAddress, SupplyDelta(c));
        if moved.None? then
          Executed(burned.value, totalSupply, Receipt(fee, Failed), Some(BalanceInsufficient))
        else
          Executed(moved.value, totalSupply + SupplyDelta(c), Receipt(fee, Success), None)
  }

  /** The account store after execute's first step: a missing customer account is created empty. */
  function WithCustomer(accounts: map<Address, int>, c: ModifySupplyContract): map<Address, int>
  {
    if c.customerAddress in accounts then accounts else accounts[c.customerAddress := 0]
  }

  /** execute, as a function of the stores before it runs. */
  function ExecuteSpec(accounts: map<Address, int>, props: DynamicProperties, blackhole: Address,
                       packed: Packed<ModifySupplyContract>): Executed
  {
    if !packed.Contract? then
      Executed(accounts, props.totalSupply, Receipt(CalcFee(), Failed), Some(InvalidProtocolBuffer))
    else
      var c := packed.contract;
      var fee := if c.customerAddress in accounts then CalcFee()
                 else CalcFee() + props.createNewAccountFeeInSystemContract;
      Settle(WithCustomer(accounts, c), props.totalSupply, blackhole, c, fee)
  }

  /**
    execute: create a missing customer account, move the fee from the owner to
    the blackhole, credit or debit the customer, and save the new total supply.
    A failed balance adjustment records FAILED with the fee computed so far and
    leaves the earlier writes in place.
   */
  method Execute(m: Manager, packed: Packed<ModifySupplyContract>) returns (ret: Receipt, err: Option<ExecutionError>)
    requires !packed.NoContract?
    modifies m
    ensures var e := ExecuteSpec(old(m.accounts), old(m.props), m.blackhole, packed);
            m.accounts == e.accounts && m.props == old(m.props).(totalSupply := e.totalSupply)
            && ret == e.receipt && err == e.error
    ensures m.proposals == old(m.proposals)
  {
    var fee := CalcFee();
    if !packed.Contract? {
      return Receipt(fee, Failed), Some(InvalidProtocolBuffer);
    }
    var c := packed.contract;
    if c.customerAddress !in m.accounts {
      m.accounts := m.accounts[c.customerAddress := 0];
      fee := fee + m.props.createNewAccountFeeInSystemContract;
    }
    var amount := c.amount;
    var totalSupply := m.props.totalSupply;
    var ok := m.AdjustBalance(c.ownerAddress, -fee);
    if !ok {
      return Receipt(fee, Failed), Some(BalanceInsufficient);
    }
    ok := m.AdjustBalance(m.blackhole, fee);
    if !ok {
      return Receipt(fee, Failed), Some(BalanceInsufficient);
    }
    if c.isIncrease {
      ok := m.AdjustBalance(c.customerAddress, amount);
      if !ok {
        return Receipt(fee, Failed), Some(BalanceInsufficient);
      }
      totalSupply := totalSupply + amount;
    } else {
      ok := m.AdjustBalance(c.customerAddress, -amount);
      if !ok {
        return Receipt(fee, Failed), Some(BalanceInsufficient);
      }
      totalSupply := totalSupply - amount;
    }
    m.props := m.props.(totalSupply := totalSupply);
    ret, err := Receipt(fee, Success), None;
  }

  /**
    On every path, successful or not, the sum of all balances minus the total
    supply is unchanged: minting and burning move both sides equally and the fee
    only moves between accounts. This needs a non-negative account-creation fee:
    with a negative one the owner is credited first and the blackhole debit can
    then fail, leaving the owner's credit in place.
   */
  lemma ExecuteConservesSupply(accounts: map<Address, int>, props: DynamicProperties, blackhole: Address,
                               packed: Packed<ModifySupplyContract>)
    requires props.createNewAccountFeeInSystemContract >= 0
    ensures var e := ExecuteSpec(accounts, props, blackhole, packed);
            Total(e.accounts) - e.totalSupply == Total(accounts) - props.totalSupply
  {
    if packed.Contract? {
      var c := packed.contract;
      if c.customerAddress !in accounts {
        TotalUpdate(accounts, c.customerAddress, 0);
      }
      var fee := if c.customerAddress in accounts then CalcFee()
                 else CalcFee() + props.createNewAccountFeeInSystemContract;
      SettleConservesSupply(WithCustomer(accounts, c), props.totalSupply, blackhole, c, fee);
    }
  }

  lemma SettleConservesSupply(accounts: map<Address, int>, totalSupply: int, blackhole: Address,
                              c: ModifySupplyContract, fee: int)
    requires fee >= 0
    ensures var e := Settle(accounts, totalSupply, blackhole, c, fee);
            Total(e.accounts) - e.totalSupply == Total(accounts) - totalSupply
  {
    var e := Settle(accounts, totalSupply, blackhole, c, fee);
    var charged := Adjust(accounts, c.ownerAddress, -fee);
    if charged.Some? {
      AdjustShiftsTotal(accounts, c.ownerAddress, -fee);
      var burned := Adjust(charged.value, blackhole, fee);
      if burned.Some? {
        AdjustShiftsTotal(charged.value, blackhole, fee);
        var moved := Adjust(burned.value, c.customerAddress, SupplyDelta(c));
        if moved.Some? {
          AdjustShiftsTotal(burned.value, c.customerAddress, SupplyDelta(c));
          assert e.accounts == moved.value && e.totalSupply == totalSupply + SupplyDelta(c);
        } else {
          assert e.accounts == burned.value && e.totalSupply == totalSupply;
        }
      }
    }
  }

  /**
    A successful execute changes each balance by exactly its share: the owner
    pays the fee, the blackhole receives it, the customer gains (increase) or
    loses (decrease) `amount`; no other balance changes, and the total supply
    moves by the same signed amount.
   */
  lemma ExecuteMovesBalances(accounts: map<Address, int>, props: DynamicProperties, blackhole: Address,
                             c: ModifySupplyContract, a: Address)
    requires ExecuteSpec(accounts, props, blackhole, Contract(c)).error.None?
    ensures var e := ExecuteSpec(accounts, props, blackhole, Contract(c));
            var fee := RequiredFee(accounts, props, c);
            && e.receipt == Receipt(fee, Success)
            && e.totalSupply == props.totalSupply + SupplyDelta(c)
            && e.accounts.Keys == accounts.Keys + {c.customerAddress, c.ownerAddress, blackhole}
            && Balance(e.accounts, a) == Balance(accounts, a)
                 - (if a == c.ownerAddress then fee else 0)
                 + (if a == blackhole then fee else 0)
                 + (if a == c.customerAddress then SupplyDelta(c) else 0)
  {
  }

  /**
    A contract that passed validate executes successfully and charges exactly
    the fee validate computed, provided that fee is not negative.
   */
  lemma ValidatedExecuteSucceeds(ext: Externals, accounts: map<Address, int>, props: DynamicProperties,
                                 blackhole: Address, c: ModifySupplyContract)
    requires Validate(ext, accounts, props, Contract(c)).Pass?
    requires RequiredFee(accounts, props, c) >= 0
    ensures ExecuteSpec(accounts, props, blackhole, Contract(c)).error.None?
    ensures ExecuteSpec(accounts, props, blackhole, Contract(c)).receipt
            == Receipt(RequiredFee(accounts, props, c), Success)
  {
  }

  /** Minting: a validated increase credits the customer with exactly `amount` and adds it to total supply. */
  lemma IncreaseAddsAmount(ext: Externals, accounts: map<Address, int>, props: DynamicProperties,
                           blackhole: Address, c: ModifySupplyContract)
    requires Validate(ext, accounts, props, Contract(c)).Pass? && c.isIncrease
    requires props.createNewAccountFeeInSystemContract >= 0
    requires c.customerAddress != blackhole
    ensures var e := ExecuteSpec(accounts, props, blackhole, Contract(c));
            && e.totalSupply == props.totalSupply + c.amount
            && Balance(e.accounts, c.customerAddress) == Balance(accounts, c.customerAddress) + c.amount
  {
    ValidatedExecuteSucceeds(ext, accounts, props, blackhole, c);
    ExecuteMovesBalances(accounts, props, blackhole, c, c.customerAddress);
  }

  /** Burning: a validated decrease debits the customer by exactly `amount` and removes it from total supply. */
  lemma DecreaseRemovesAmount(ext: Externals, accounts: map<Address, int>, props: DynamicProperties,
                              blackhole: Address, c: ModifySupplyContract)
    requires Validate(ext, accounts, props, Contract(c)).Pass? && !c.isIncrease
    ensures var e := ExecuteSpec(accounts, props, blackhole, Contract(c));
            && e.totalSupply == props.totalSupply - c.amount
            && e.accounts[c.customerAddress] == accounts[c.customerAddress] - c.amount
  {
    ValidatedExecuteSucceeds(ext, accounts, props, blackhole, c);
    ExecuteMovesBalances(accounts, props, blackhole, c, c.customerAddress);
  }

  /**
    When the owner cannot pay for a newly created customer account, execute
    records FAILED with the fee including the account-creation term, total
    supply is untouched, and the created customer account stays in the store.
   */
  lemma FailedExecuteKeepsCreatedAccount(accounts: map<Address, int>, props: DynamicProperties,
                                         blackhole: Address, c: ModifySupplyContract)
    requires c.customerAddress !in accounts
    requires c.ownerAddress in accounts && 0 <= accounts[c.ownerAddress]
    requires accounts[c.ownerAddress] < props.createNewAccountFeeInSystemContract
    ensures var e := ExecuteSpec(accounts, props, blackhole, Contract(c));
            && e.error == Some(BalanceInsufficient)
            && e.receipt == Receipt(props.createNewAccountFeeInSystemContract, Failed)
            && e.totalSupply == props.totalSupply
            && e.accounts == accounts[c.customerAddress := 0]
  {
  }
}
