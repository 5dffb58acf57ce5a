/**
  The proposal governance controller, run at each maintenance: it scans the
  proposal store from the latest id downwards, stops at the first proposal
  already voted on, skips canceled and unexpired ones, and resolves expired
  ones, applying the parameters of those that gathered most approvals.
 */
module ProposalController {
  import opened Chain
  import opened JavaLong
  import ProposalCreateActuator

  /** Number of governance parameter ids whose store field setDynamicParameters writes (0-25). */
  const ParameterCount: int := 26

  /** A stored parameter value: numeric ids 0-23, address ids 24 and 25. */
  datatype FieldValue = Num(n: int) | Addr(a: Address)

  /** The dynamic-properties field governance parameter `j` is stored in. */
  function Field(p: DynamicProperties, j: int): FieldValue
    requires 0 <= j < ParameterCount
  {
    if j == 0 then Num(p.maintenanceTimeInterval)
    else if j == 1 then Num(p.accountUpgradeCost)
    else if j == 2 then Num(p.createAccountFee)
    else if j == 3 then Num(p.transactionFee)
    else if j == 4 then Num(p.assetIssueFee)
    else if j == 5 then Num(p.witnessPayPerBlock)
    else if j == 6 then Num(p.witnessStandbyAllowance)
    else if j == 7 then Num(p.createNewAccountFeeInSystemContract)
    else if j == 8 then Num(p.createNewAccountGasRate)
    else if j == 9 then Num(p.allowCreationOfContracts)
    else if j == 10 then Num(p.removeThePowerOfTheGr)
    else if j == 11 then Num(p.energyFee)
    else if j == 12 then Num(p.exchangeCreateFee)
    else if j == 13 then Num(p.maxCpuTimeOfOneTx)
    else if j == 14 then Num(p.allowUpdateAccountName)
    else if j == 15 then Num(p.allowSameTokenName)
    else if j == 16 then Num(p.allowDelegateResource)
    else if j == 17 then Num(p.totalEnergyLimit)
    else if j == 18 then Num(p.allowTvmTransferTrc10)
    else if j == 19 then Num(p.totalEnergyLimit2)
    else if j == 20 then Num(p.allowMultiSign)
    else if j == 21 then Num(p.allowAdaptiveEnergy)
    else if j == 22 then Num(p.updateAccountPermissionFee)
    else if j == 23 then Num(p.multiSignFee)
    else if j == 24 then Addr(p.increaseSupplyAddress)
    else Addr(p.decreaseSupplyAddress)
  }

  /** The one-shot switches, written only while their stored value is 0. */
  predicate OneShot(k: int)
  {
    k == 10 || k == 20 || k == 21
  }

  /**
    The parameters applying id `k` writes: its own, and, through the cases
    without `break`, 23 and 24 after 22, and 24 after 23.
   */
  function Writes(k: int): set<int>
  {
    if k == 22 then {22, 23, 24}
    else if k == 23 then {23, 24}
    else if 0 <= k < ParameterCount then {k}
    else {}
  }

  /** Applying id `k` writes anything at all: a known id, and not a one-shot switch already set. */
  predicate Effective(p: DynamicProperties, k: int)
  {
    0 <= k < ParameterCount && !(OneShot(k) && Field(p, k) != Num(0))
  }

  /** The store after some entries were applied, and whether a value failed to parse. */
  datatype Applied = Applied(props: DynamicProperties, failed: bool)

  /** The saves of the numeric cases 0-23, with the fallthrough of 22 into 23 into 24. */
  function SaveNumeric(p: DynamicProperties, k: int, n: int, hex: Address): DynamicProperties
    requires 0 <= k <= 23
  {
    if k == 0 then p.(maintenanceTimeInterval := n)
    else if k == 1 then p.(accountUpgradeCost := n)
    else if k == 2 then p.(createAccountFee := n)
    else if k == 3 then p.(transactionFee := n)
    else if k == 4 then p.(assetIssueFee := n)
    else if k == 5 then p.(witnessPayPerBlock := n)
    else if k == 6 then p.(witnessStandbyAllowance := n)
    else if k == 7 then p.(createNewAccountFeeInSystemContract := n)
    else if k == 8 then p.(createNewAccountGasRate := n)
    else if k == 9 then p.(allowCreationOfContracts := n)
    else if k == 10 then p.(removeThePowerOfTheGr := n)
    else if k == 11 then p.(energyFee := n)
    else if k == 12 then p.(exchangeCreateFee := n)
    else if k == 13 then p.(maxCpuTimeOfOneTx := n)
    else if k == 14 then p.(allowUpdateAccountName := n)
    else if k == 15 then p.(allowSameTokenName := n)
    else if k == 16 then p.(allowDelegateResource := n)
    else if k == 17 then p.(totalEnergyLimit := n)
    else if k == 18 then p.(allowTvmTransferTrc10 := n)
    else if k == 19 then p.(totalEnergyLimit2 := n)
    else if k == 20 then p.(allowMultiSign := n)
    else if k == 21 then p.(allowAdaptiveEnergy := n)
    else if k == 22 then p.(updateAccountPermissionFee := n, multiSignFee := n, increaseSupplyAddress := hex)
    else p.(multiSignFee := n, increaseSupplyAddress := hex)
  }

  /**
    One entry of setDynamicParameters: the switch on the id's low 32 bits.
    `failed` stands for the NumberFormatException of Long.parseLong; the store
    is then left as it was before this entry.
   */
  function ApplyParameter(ext: Externals, p: DynamicProperties, key: int, value: string): (r: Applied)
    ensures r.failed <==> Effective(p, IntValue(key)) && IntValue(key) <= 23 && ParseLong(value).None?
    ensures r.failed ==> r.props == p
    ensures && r.props.totalSupply == p.totalSupply
            && r.props.latestProposalNum == p.latestProposalNum
            && r.props.nextMaintenanceTime == p.nextMaintenanceTime
  {
    var k := IntValue(key);
    var hex := ext.fromHexString(value);
    if k == 24 then Applied(p.(increaseSupplyAddress := hex), false)
    else if k == 25 then Applied(p.(decreaseSupplyAddress := hex), false)
    else if k < 0 || k > 25 then Applied(p, false)
    else if k == 10 && p.removeThePowerOfTheGr != 0 then Applied(p, false)
    else if k == 20 && p.allowMultiSign != 0 then Applied(p, false)
    else if k == 21 && p.allowAdaptiveEnergy != 0 then Applied(p, false)
    else
      match ParseLong(value)
      case None => Applied(p, true)
      case Some(n) => Applied(SaveNumeric(p, k, n, hex), false)
  }

  /**
    One entry leaves every parameter outside Writes of its id alone, and
    writes nothing when the id is unknown or names a one-shot switch already set.
   */
  lemma ApplyParameterFrame(ext: Externals, p: DynamicProperties, key: int, value: string, j: int)
    requires 0 <= j < ParameterCount
    requires !(Effective(p, IntValue(key)) && j in Writes(IntValue(key)))
    ensures Field(ApplyParameter(ext, p, key, value).props, j) == Field(p, j)
  {
    var k := IntValue(key);
    var r := ApplyParameter(ext, p, key, value);
    if Effective(p, k) && k <= 23 && !r.failed {
      var n := ParseLong(value).value;
      var hex := ext.fromHexString(value);
      assert r.props == SaveNumeric(p, k, n, hex);
      if j < 9 {
        SaveNumericFrameLow(p, k, n, hex, j);
      } else if j < 18 {
        SaveNumericFrameMid(p, k, n, hex, j);
      } else {
        SaveNumericFrameHigh(p, k, n, hex, j);
      }
    }
  }

  /** The numeric saves leave parameters 0-8 they do not write alone. */
  lemma SaveNumericFrameLow(p: DynamicProperties, k: int, n: int, hex: Address, j: int)
    requires 0 <= k <= 23 && 0 <= j < 9 && j !in Writes(k)
    ensures Field(SaveNumeric(p, k, n, hex), j) == Field(p, j)
  {
  }

  /** The numeric saves leave parameters 9-17 they do not write alone. */
  lemma SaveNumericFrameMid(p: DynamicProperties, k: int, n: int, hex: Address, j: int)
    requires 0 <= k <= 23 && 9 <= j < 18 && j !in Writes(k)
    ensures Field(SaveNumeric(p, k, n, hex), j) == Field(p, j)
  {
  }

  /** The numeric saves leave parameters 18-25 they do not write alone. */
  lemma SaveNumericFrameHigh(p: DynamicProperties, k: int, n: int, hex: Address, j: int)
    requires 0 <= k <= 23 && 18 <= j < ParameterCount && j !in Writes(k)
    ensures Field(SaveNumeric(p, k, n, hex), j) == Field(p, j)
  {
  }

  /**
    What one effective entry writes: the numeric parameters in Writes of its
    id receive the parsed value, the address ones the hex-decoded value.
   */
  lemma ApplyParameterWrites(ext: Externals, p: DynamicProperties, key: int, value: string, j: int)
    requires Effective(p, IntValue(key)) && j in Writes(IntValue(key))
    requires !ApplyParameter(ext, p, key, value).failed
    ensures var after := ApplyParameter(ext, p, key, value).props;
            && (j <= 23 ==> ParseLong(value).Some? && Field(after, j) == Num(ParseLong(value).value))
            && (j == 24 ==> after.increaseSupplyAddress == ext.fromHexString(value))
            && (j == 25 ==> after.decreaseSupplyAddress == ext.fromHexString(value))
  {
  }

  /** The entries applied in iteration order, stopping at the first that fails to parse. */
  function ApplyParameters(ext: Externals, p: DynamicProperties, entries: seq<(int, string)>): (r: Applied)
    ensures && r.props.totalSupply == p.totalSupply
            && r.props.latestProposalNum == p.latestProposalNum
            && r.props.nextMaintenanceTime == p.nextMaintenanceTime
    decreases |entries|
  {
    if entries == [] then Applied(p, false)
    else
      var before := ApplyParameters(ext, p, entries[..|entries| - 1]);
      if before.failed then before
      else ApplyParameter(ext, before.props, entries[|entries| - 1].0, entries[|entries| - 1].1)
  }

  /**
    Applying a parameter map never changes a one-shot switch that is already
    set, nor any parameter that none of its entries writes.
   */
  lemma {:induction false} ApplyParametersFrame(ext: Externals, p: DynamicProperties, entries: seq<(int, string)>)
    ensures var r := ApplyParameters(ext, p, entries);
            && (forall j :: 0 <= j < ParameterCount && OneShot(j) && Field(p, j) != Num(0) ==>
                  Field(r.props, j) == Field(p, j))
            && (forall j :: 0 <= j < ParameterCount && (forall i :: 0 <= i < |entries| ==> j !in Writes(IntValue(entries[i].0))) ==>
                  Field(r.props, j) == Field(p, j))
    decreases |entries|
  {
    if entries != [] {
      var front := entries[..|entries| - 1];
      ApplyParametersFrame(ext, p, front);
      var before := ApplyParameters(ext, p, front);
      if !before.failed {
        var (key, value) := entries[|entries| - 1];
        forall j | 0 <= j < ParameterCount && !(Effective(before.props, IntValue(key)) && j in Writes(IntValue(key)))
          ensures Field(ApplyParameter(ext, before.props, key, value).props, j) == Field(before.props, j)
        {
          ApplyParameterFrame(ext, before.props, key, value, j);
        }
      }
    }
  }

  /** Once an entry fails to parse, the entries after it are not applied. */
  lemma {:induction false} FailureStops(ext: Externals, p: DynamicProperties, entries: seq<(int, string)>, i: nat)
    requires i <= |entries|
    requires ApplyParameters(ext, p, entries[..i]).failed
    ensures ApplyParameters(ext, p, entries) == ApplyParameters(ext, p, entries[..i])
    decreases |entries|
  {
    if i < |entries| {
      var front := entries[..|entries| - 1];
      assert front[..i] == entries[..i];
      FailureStops(ext, p, front, i);
    } else {
      assert entries[..i] == entries;
    }
  }

  /** The store after processProposal, and whether setDynamicParameters threw. */
  datatype Scan = Scan(proposals: map<int, Proposal>, props: DynamicProperties, aborted: bool)

  /**
    processProposal: with most approvals among the active witnesses the
    parameters are applied and the proposal is stored APPROVED, otherwise it
    is stored DISAPPROVED. When a value fails to parse the exception leaves
    the parameters written so far and the proposal unchanged.
   */
  function ResolveProposal(ext: Externals, active: seq<Address>, proposals: map<int, Proposal>,
                           props: DynamicProperties, p: Proposal): (s: Scan)
    ensures ext.hasMostApprovals(p, active) ==> s.props == ApplyParameters(ext, props, p.parameters).props
    ensures s.aborted <==> ext.hasMostApprovals(p, active) && ApplyParameters(ext, props, p.parameters).failed
    ensures s.aborted ==> s.proposals == proposals
    ensures !s.aborted ==> p.id in s.proposals && s.proposals == proposals[p.id := p.(state := s.proposals[p.id].state)]
    ensures !s.aborted ==> (s.proposals[p.id].state == Approved <==> ext.hasMostApprovals(p, active))
    ensures !s.aborted ==> HasProcessed(s.proposals[p.id])
    ensures !ext.hasMostApprovals(p, active) ==> s.props == props
    ensures s.props.nextMaintenanceTime == props.nextMaintenanceTime
    ensures s.props.totalSupply == props.totalSupply && s.props.latestProposalNum == props.latestProposalNum
  {
    if ext.hasMostApprovals(p, active) then
      var applied := ApplyParameters(ext, props, p.parameters);
      if applied.failed then Scan(proposals, applied.props, true)
      else Scan(proposals[p.id := p.(state := Approved)], applied.props, false)
    else Scan(proposals[p.id := p.(state := Disapproved)], props, false)
  }

  /** A proposal the scan turned from open to voted: its state and nothing else changed. */
  predicate Resolved(ext: Externals, before: Proposal, after: Proposal, currentTime: int)
  {
    && !HasProcessed(before) && !HasCanceled(before) && ext.hasExpired(before, currentTime)
    && after == before.(state := after.state) && HasProcessed(after)
  }

  /**
    The scan of processProposals from id `n` downwards: stop at a processed
    proposal, skip a canceled or unexpired one, resolve an expired one.
   */
  function ProcessFrom(ext: Externals, active: seq<Address>, proposals: map<int, Proposal>,
                       props: DynamicProperties, n: int): (s: Scan)
    requires Indexed(proposals, n)
    ensures s.proposals.Keys == proposals.Keys
    ensures s.props.nextMaintenanceTime == props.nextMaintenanceTime
    ensures s.props.totalSupply == props.totalSupply && s.props.latestProposalNum == props.latestProposalNum
    decreases n
  {
    if n <= 0 then Scan(proposals, props, false)
    else
      var p := proposals[n];
      if HasProcessed(p) then Scan(proposals, props, false)
      else if HasCanceled(p) then ProcessFrom(ext, active, proposals, props, n - 1)
      else if ext.hasExpired(p, props.nextMaintenanceTime) then
        var resolved := ResolveProposal(ext, active, proposals, props, p);
        if resolved.aborted then resolved
        else
          IndexedUpdate(proposals, n - 1, p.id, resolved.proposals[p.id]);
          ProcessFrom(ext, active, resolved.proposals, resolved.props, n - 1)
      else ProcessFrom(ext, active, proposals, props, n - 1)
  }

  /** The scan keeps the indexing of the store and touches no id outside 1..n. */
  lemma {:induction false} ScanFrame(ext: Externals, active: seq<Address>, proposals: map<int, Proposal>,
                                     props: DynamicProperties, n: int)
    requires Indexed(proposals, n)
    ensures var s := ProcessFrom(ext, active, proposals, props, n);
            && Indexed(s.proposals, n)
            && (forall id :: id in proposals && !(1 <= id <= n) ==> s.proposals[id] == proposals[id])
    decreases n
  {
    if n > 0 {
      var p := proposals[n];
      if HasProcessed(p) {
      } else if HasCanceled(p) || !ext.hasExpired(p, props.nextMaintenanceTime) {
        ScanFrame(ext, active, proposals, props, n - 1);
      } else {
        var resolved := ResolveProposal(ext, active, proposals, props, p);
        if !resolved.aborted {
          IndexedUpdate(proposals, n - 1, p.id, resolved.proposals[p.id]);
          ScanFrame(ext, active, resolved.proposals, resolved.props, n - 1);
        }
      }
    }
  }

  /**
    The only change the scan makes to a stored proposal is to resolve an
    open, expired one to a voted state.
   */
  lemma {:induction false} ScanOnlyResolves(ext: Externals, active: seq<Address>, proposals: map<int, Proposal>,
                                            props: DynamicProperties, n: int, id: int)
    requires Indexed(proposals, n)
    requires id in proposals
    ensures var s := ProcessFrom(ext, active, proposals, props, n);
            id in s.proposals &&
            (s.proposals[id] != proposals[id] ==> Resolved(ext, proposals[id], s.proposals[id], props.nextMaintenanceTime))
    decreases n
  {
    ScanFrame(ext, active, proposals, props, n);
    if n > 0 {
      var p := proposals[n];
      if HasProcessed(p) {
      } else if HasCanceled(p) || !ext.hasExpired(p, props.nextMaintenanceTime) {
        ScanOnlyResolves(ext, active, proposals, props, n - 1, id);
      } else {
        var resolved := ResolveProposal(ext, active, proposals, props, p);
        if !resolved.aborted {
          IndexedUpdate(proposals, n - 1, p.id, resolved.proposals[p.id]);
          ScanOnlyResolves(ext, active, resolved.proposals, resolved.props, n - 1, id);
          if id != n {
            assert resolved.proposals[id] == proposals[id];
          } else {
            ScanFrame(ext, active, resolved.proposals, resolved.props, n - 1);
          }
        }
      }
    }
  }

  /** The scan passes over a canceled or unexpired proposal at id n > 0. */
  lemma ScanSkips(ext: Externals, active: seq<Address>, proposals: map<int, Proposal>,
                  props: DynamicProperties, n: int)
    requires n > 0 && Indexed(proposals, n)
    requires !HasProcessed(proposals[n])
    requires HasCanceled(proposals[n]) || !ext.hasExpired(proposals[n], props.nextMaintenanceTime)
    ensures Indexed(proposals, n - 1)
    ensures ProcessFrom(ext, active, proposals, props, n) == ProcessFrom(ext, active, proposals, props, n - 1)
  {
  }

  /** The scan resolves an open, expired proposal at id n > 0 and goes on below it. */
  lemma ScanResolves(ext: Externals, active: seq<Address>, proposals: map<int, Proposal>,
                     props: DynamicProperties, n: int)
    requires n > 0 && Indexed(proposals, n)
    requires !HasProcessed(proposals[n]) && !HasCanceled(proposals[n])
    requires ext.hasExpired(proposals[n], props.nextMaintenanceTime)
    ensures var resolved := ResolveProposal(ext, active, proposals, props, proposals[n]);
            && (resolved.aborted ==> ProcessFrom(ext, active, proposals, props, n) == resolved)
            && (!resolved.aborted ==>
                  && Indexed(resolved.proposals, n - 1)
                  && ProcessFrom(ext, active, proposals, props, n)
                     == ProcessFrom(ext, active, resolved.proposals, resolved.props, n - 1))
  {
    var resolved := ResolveProposal(ext, active, proposals, props, proposals[n]);
    if !resolved.aborted {
      IndexedUpdate(proposals, n - 1, n, resolved.proposals[n]);
    }
  }

  /**
    The scan stops at a processed proposal: that proposal and every lower id
    are left as they were.
   */
  lemma {:induction false} ScanStopsAtProcessed(ext: Externals, active: seq<Address>, proposals: map<int, Proposal>,
                                                props: DynamicProperties, n: int, k: int)
    requires Indexed(proposals, n)
    requires 1 <= k <= n && k in proposals && HasProcessed(proposals[k])
    ensures var s := ProcessFrom(ext, active, proposals, props, n);
            forall id :: 1 <= id <= k && id in proposals ==> id in s.proposals && s.proposals[id] == proposals[id]
    decreases n
  {
    ScanFrame(ext, active, proposals, props, n);
    var p := proposals[n];
    if n > k && !HasProcessed(p) {
      if HasCanceled(p) || !ext.hasExpired(p, props.nextMaintenanceTime) {
        ScanStopsAtProcessed(ext, active, proposals, props, n - 1, k);
      } else {
        var resolved := ResolveProposal(ext, active, proposals, props, p);
        if !resolved.aborted {
          IndexedUpdate(proposals, n - 1, p.id, resolved.proposals[p.id]);
          ScanStopsAtProcessed(ext, active, resolved.proposals, resolved.props, n - 1, k);
        }
      }
    }
  }

  /**
    An open, expired proposal above every processed one is stored APPROVED
    when it has most approvals among the active witnesses and DISAPPROVED
    otherwise, unless a parameter value aborted the scan.
   */
  lemma {:induction false} ScanResolvesExpired(ext: Externals, active: seq<Address>, proposals: map<int, Proposal>,
                                               props: DynamicProperties, n: int, j: int)
    requires Indexed(proposals, n)
    requires 1 <= j <= n
    requires forall i :: j <= i <= n ==> i in proposals && !HasProcessed(proposals[i])
    requires !HasCanceled(proposals[j]) && ext.hasExpired(proposals[j], props.nextMaintenanceTime)
    ensures var s := ProcessFrom(ext, active, proposals, props, n);
            !s.aborted ==>
              j in s.proposals &&
              s.proposals[j] == proposals[j].(state := if ext.hasMostApprovals(proposals[j], active) then Approved else Disapproved)
    decreases n
  {
    var p := proposals[n];
    if HasCanceled(p) || !ext.hasExpired(p, props.nextMaintenanceTime) {
      ScanResolvesExpired(ext, active, proposals, props, n - 1, j);
    } else {
      var resolved := ResolveProposal(ext, active, proposals, props, p);
      if !resolved.aborted {
        IndexedUpdate(proposals, n - 1, p.id, resolved.proposals[p.id]);
        if j < n {
          ScanResolvesExpired(ext, active, resolved.proposals, resolved.props, n - 1, j);
        } else {
          ScanFrame(ext, active, resolved.proposals, resolved.props, n - 1);
        }
      }
    }
  }

  /**
    The scan never changes a one-shot switch (ids 10, 20, 21) that is already
    set, however many approved proposals it applies.
   */
  lemma {:induction false} ScanKeepsOneShots(ext: Externals, active: seq<Address>, proposals: map<int, Proposal>,
                                             props: DynamicProperties, n: int, j: int)
    requires Indexed(proposals, n)
    requires 0 <= j < ParameterCount && OneShot(j) && Field(props, j) != Num(0)
    ensures Field(ProcessFrom(ext, active, proposals, props, n).props, j) == Field(props, j)
    decreases n
  {
    if n > 0 {
      var p := proposals[n];
      if HasProcessed(p) {
      } else if HasCanceled(p) || !ext.hasExpired(p, props.nextMaintenanceTime) {
        ScanKeepsOneShots(ext, active, proposals, props, n - 1, j);
      } else {
        var resolved := ResolveProposal(ext, active, proposals, props, p);
        ApplyParametersFrame(ext, props, p.parameters);
        assert Field(resolved.props, j) == Field(props, j);
        if !resolved.aborted {
          IndexedUpdate(proposals, n - 1, p.id, resolved.proposals[p.id]);
          ScanKeepsOneShots(ext, active, resolved.proposals, resolved.props, n - 1, j);
        }
      }
    }
  }

  /** Canceled proposals and proposals not yet expired are left as they were. */
  lemma ScanSkipsClosed(ext: Externals, active: seq<Address>, proposals: map<int, Proposal>,
                        props: DynamicProperties, n: int, j: int)
    requires Indexed(proposals, n)
    requires j in proposals
    requires HasCanceled(proposals[j]) || !ext.hasExpired(proposals[j], props.nextMaintenanceTime)
    ensures var s := ProcessFrom(ext, active, proposals, props, n);
            j in s.proposals && s.proposals[j] == proposals[j]
  {
    ScanOnlyResolves(ext, active, proposals, props, n, j);
  }

  /** A scan that ran to its end leaves nothing for a second scan to do. */
  lemma {:induction false} ScanIdempotent(ext: Externals, active: seq<Address>, proposals: map<int, Proposal>,
                                          props: DynamicProperties, n: int)
    requires Indexed(proposals, n)
    ensures var s := ProcessFrom(ext, active, proposals, props, n);
            && Indexed(s.proposals, n)
            && (!s.aborted ==> ProcessFrom(ext, active, s.proposals, s.props, n) == Scan(s.proposals, s.props, false))
    decreases n
  {
    ScanFrame(ext, active, proposals, props, n);
    if n > 0 {
      var p := proposals[n];
      if HasProcessed(p) {
      } else if HasCanceled(p) || !ext.hasExpired(p, props.nextMaintenanceTime) {
        ScanFrame(ext, active, proposals, props, n - 1);
        ScanIdempotent(ext, active, proposals, props, n - 1);
      } else {
        var resolved := ResolveProposal(ext, active, proposals, props, p);
        if !resolved.aborted {
          IndexedUpdate(proposals, n - 1, p.id, resolved.proposals[p.id]);
          ScanFrame(ext, active, resolved.proposals, resolved.props, n - 1);
        }
      }
    }
  }

  /** Parameter 0 from the text "100000" sets the maintenance interval to exactly 100000. */
  lemma MaintenanceIntervalExample(ext: Externals, p: DynamicProperties)
    ensures ApplyParameters(ext, p, [(0, "100000")]) == Applied(p.(maintenanceTimeInterval := 100000), false)
  {
    ParseDecimal(100000);
    assert Decimal(100000) == "100000";
    assert [(0, "100000")][..0] == [];
  }

  /**
    Approving a proposal whose map is {0: "100000"} stores it APPROVED and
    sets the maintenance interval to 100000, leaving every other property alone.
   */
  lemma ApprovedIntervalExample(ext: Externals, active: seq<Address>, proposals: map<int, Proposal>,
                                props: DynamicProperties, p: Proposal)
    requires p.parameters == [(0, "100000")] && ext.hasMostApprovals(p, active)
    ensures var s := ResolveProposal(ext, active, proposals, props, p);
            && !s.aborted
            && s.props == props.(maintenanceTimeInterval := 100000)
            && s.proposals == proposals[p.id := p.(state := Approved)]
  {
    MaintenanceIntervalExample(ext, props);
  }

  /**
    Parameter 22 falls through: the same value also becomes the multi-signature
    fee and, hex-decoded, the increase-supply address.
   */
  lemma PermissionFeeFallsThrough(ext: Externals, p: DynamicProperties)
    ensures ApplyParameter(ext, p, 22, "5")
            == Applied(p.(updateAccountPermissionFee := 5, multiSignFee := 5, increaseSupplyAddress := ext.fromHexString("5")), false)
  {
    ParseDecimal(5);
    assert Decimal(5) == "5";
  }

  /**
    Because of the fallthrough the order of the entries decides the
    increase-supply address: an explicit parameter 24 is overwritten by a
    later parameter 22 but wins when it comes after it.
   */
  lemma EntryOrderMatters(ext: Externals, p: DynamicProperties, hex: string)
    ensures ApplyParameters(ext, p, [(24, hex), (22, "5")]).props.increaseSupplyAddress == ext.fromHexString("5")
    ensures ApplyParameters(ext, p, [(22, "5"), (24, hex)]).props.increaseSupplyAddress == ext.fromHexString(hex)
  {
    PermissionFeeFallsThrough(ext, p);
    PermissionFeeFallsThrough(ext, p.(increaseSupplyAddress := ext.fromHexString(hex)));
    assert ApplyParameters(ext, p, [(24, hex)]) == Applied(p.(increaseSupplyAddress := ext.fromHexString(hex)), false);
    assert [(24, hex), (22, "5")][..1] == [(24, hex)];
    assert [(24, hex)][..0] == [];
    assert [(22, "5"), (24, hex)][..1] == [(22, "5")];
    assert [(22, "5")][..0] == [];
  }

  /**
    A value that passed validation applies without a parse failure, except
    for parameters 11 and 12, whose values validation never parses.
   */
  lemma ValidatedEntryApplies(ext: Externals, forks: set<Fork>, accounts: map<Address, int>,
                              checked: DynamicProperties, applied: DynamicProperties, key: int, value: string)
    requires ProposalCreateActuator.ValidateValue(ext, forks, accounts, checked, key, value).Pass?
    requires IntValue(key) != 11 && IntValue(key) != 12
    ensures !ApplyParameter(ext, applied, key, value).failed
  {
  }

  /**
    Parameters 11 and 12 accept any text at validation, so a proposal with an
    unparsable energy fee passes validation and makes setDynamicParameters
    fail when it is approved.
   */
  lemma UnparsedEnergyFeeAborts(ext: Externals, forks: set<Fork>, accounts: map<Address, int>,
                                checked: DynamicProperties, applied: DynamicProperties)
    ensures ProposalCreateActuator.ValidateValue(ext, forks, accounts, checked, 11, "x").Pass?
    ensures ApplyParameter(ext, applied, 11, "x") == Applied(applied, true)
  {
  }

  /**
    setDynamicParameters: the loop over the parameter map. Returns false
    where Long.parseLong throws, with the entries before it applied.
   */
  method SetDynamicParameters(m: Manager, ext: Externals, proposal: Proposal) returns (ok: bool)
    modifies m
    ensures var applied := ApplyParameters(ext, old(m.props), proposal.parameters);
            m.props == applied.props && ok == !applied.failed
    ensures m.proposals == old(m.proposals) && m.accounts == old(m.accounts)
  {
    var entries := proposal.parameters;
    var i := 0;
    while i < |entries|
      invariant 0 <= i <= |entries|
      invariant ApplyParameters(ext, old(m.props), entries[..i]) == Applied(m.props, false)
      invariant m.proposals == old(m.proposals) && m.accounts == old(m.accounts)
    {
      assert entries[..i + 1][..i] == entries[..i];
      var (key, value) := entries[i];
      var entry := ApplyParameter(ext, m.props, key, value);
      m.props := entry.props;
      if entry.failed {
        FailureStops(ext, old(m.props), entries, i + 1);
        return false;
      }
      i := i + 1;
    }
    assert entries[..i] == entries;
    ok := true;
  }

  /** processProposal; false where setDynamicParameters threw. */
  method ProcessProposal(m: Manager, ext: Externals, proposal: Proposal) returns (ok: bool)
    modifies m
    ensures var s := ResolveProposal(ext, m.activeWitnesses, old(m.proposals), old(m.props), proposal);
            m.proposals == s.proposals && m.props == s.props && ok == !s.aborted
    ensures m.accounts == old(m.accounts)
  {
    if ext.hasMostApprovals(proposal, m.activeWitnesses) {
      ok := SetDynamicParameters(m, ext, proposal);
      if !ok {
        return;
      }
      m.proposals := m.proposals[proposal.id := proposal.(state := Approved)];
    } else {
      m.proposals := m.proposals[proposal.id := proposal.(state := Disapproved)];
      ok := true;
    }
  }

  /**
    processProposals: the downward scan from latestProposalNum. Returns false
    where a parameter value failed to parse and the exception ended the scan.
   */
  method ProcessProposals(m: Manager, ext: Externals) returns (completed: bool)
    requires Indexed(m.proposals, m.props.latestProposalNum)
    modifies m
    ensures var s := ProcessFrom(ext, m.activeWitnesses, old(m.proposals), old(m.props), old(m.props.latestProposalNum));
            m.proposals == s.proposals && m.props == s.props && completed == !s.aborted
    ensures old(m.props.latestProposalNum) == 0 ==> m.proposals == old(m.proposals) && m.props == old(m.props)
    ensures m.accounts == old(m.accounts)
  {
    var latestProposalNum := m.props.latestProposalNum;
    if latestProposalNum == 0 {
      return true;
    }
    ghost var goal := ProcessFrom(ext, m.activeWitnesses, m.proposals, m.props, latestProposalNum);
    var proposalNum := latestProposalNum;
    while proposalNum > 0
      invariant Indexed(m.proposals, proposalNum)
      invariant ProcessFrom(ext, m.activeWitnesses, m.proposals, m.props, proposalNum) == goal
      invariant m.accounts == old(m.accounts)
      decreases proposalNum
    {
      var proposal := m.proposals[proposalNum];
      if HasProcessed(proposal) {
        break;
      }
      if HasCanceled(proposal) {
        ScanSkips(ext, m.activeWitnesses, m.proposals, m.props, proposalNum);
        proposalNum := proposalNum - 1;
        continue;
      }
      var currentTime := m.props.nextMaintenanceTime;
      if ext.hasExpired(proposal, currentTime) {
        ScanResolves(ext, m.activeWitnesses, m.proposals, m.props, proposalNum);
        ghost var resolved := ResolveProposal(ext, m.activeWitnesses, m.proposals, m.props, proposal);
        var ok := ProcessProposal(m, ext, proposal);
        assert m.proposals == resolved.proposals && m.props == resolved.props && ok == !resolved.aborted;
        if !ok {
          return false;
        }
        proposalNum := proposalNum - 1;
        continue;
      }
      ScanSkips(ext, m.activeWitnesses, m.proposals, m.props, proposalNum);
      proposalNum := proposalNum - 1;
    }
    completed := true;
  }
}
