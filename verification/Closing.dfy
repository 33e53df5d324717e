/** Closing a channel: the settlement simulation and the challenge checks, for any output of the CLVM. */
module Closing {
  import opened ByteStrings
  import opened Protocol
  import opened Types
  import opened Ledgers
  import opened Packages
  import opened Clvm

  const CLOSING_STATE_DOMAIN: Bytes := Ascii("XHUB_CLOSING_STATE_V3_6")

  /** The tree hashes of the committed modules, and the coin id of (parent, puzzle hash, amount). */
  datatype Modules = Modules(initialClosing: Bytes32, subsequentClosing: Bytes32, merchantPayment: Bytes32,
                             coinId: (Bytes32, Bytes32, u64) -> Bytes32)

  datatype ClosingError = Invalid(cause: ProtocolError) | Rejected(reason: string)

  // ---------------------------------------------------------------- puzzle commitments

  function ClosingStatePreimage(networkId: Bytes32, coin: Bytes32, termsHash: Bytes32, deadline: Bytes8,
                                stateHash: Bytes32): Bytes
  {
    CLOSING_STATE_DOMAIN + (U16(PROTOCOL_VERSION) + (networkId + (coin + (termsHash + (deadline + stateHash)))))
  }

  function ClosingStateHash(c: Crypto, networkId: Bytes32, coin: Bytes32, termsHash: Bytes32, deadline: Bytes8,
                            stateHash: Bytes32): Bytes32
  {
    c.sha256(ClosingStatePreimage(networkId, coin, termsHash, deadline, stateHash))
  }

  function OneArgPuzzleHash(c: Crypto, module_: Bytes32, argument: Bytes): Bytes32 {
    c.curryHash(module_, [argument])
  }

  function MerchantPaymentPuzzleHash(c: Crypto, module_: Bytes32, networkId: Bytes32, coin: Bytes32, termsHash: Bytes32,
                                     index: u64, nonce: Bytes32, merchant: Bytes32): Bytes32
  {
    c.curryHash(module_, [U16(PROTOCOL_VERSION), networkId, coin, termsHash, U64(index), nonce, merchant])
  }

  // ---------------------------------------------------------------- what is run

  /** The state a solution spells out, with its entries. */
  datatype StateArgs = StateArgs(checkpoint: LedgerCheckpoint, entries: seq<LedgerEntry>)

  /** A module, its curried arguments and its solution. */
  datatype Spend =
    | FundingSpend(terms: ChannelTerms, coin: Bytes32, state: StateArgs)
    | InitialSpend(commitment: Bytes32, mode: nat, birth: u64, deadline: u64, terms: ChannelTerms, coin: Bytes32,
                   current: StateArgs, next: StateArgs)
    | SubsequentSpend(commitment: Bytes32, mode: nat, deadline: u64, terms: ChannelTerms, coin: Bytes32,
                      current: StateArgs, next: StateArgs)
    | PaymentSpend(networkId: Bytes32, coin: Bytes32, termsHash: Bytes32, index: u64, nonce: Bytes32,
                   merchant: Bytes32, amount: u64)

  /** The puzzle hash of the coin a spend spends: its module, with the arguments curried into it. The funding coin's is
      the channel's own. */
  function RevealedHash(c: Crypto, m: Modules, spend: Spend): Bytes32
    requires !spend.FundingSpend?
  {
    match spend
    case InitialSpend(commitment, _, _, _, _, _, _, _) => c.curryHash(m.initialClosing, [commitment])
    case SubsequentSpend(commitment, _, _, _, _, _, _) => c.curryHash(m.subsequentClosing, [commitment])
    case PaymentSpend(networkId, coin, termsHash, index, nonce, merchant, _) =>
      c.curryHash(m.merchantPayment, [U16(PROTOCOL_VERSION), networkId, coin, termsHash, U64(index), nonce, merchant])
  }

  /** The CLVM: any answer to any spend. */
  type Vm = Spend -> Result<Node, Failed>

  function RunConditions(vm: Vm, spend: Spend): Result<seq<Condition>, Failed> {
    var root :- vm(spend);
    ReadConditions(root)
  }

  function StateOf(p: RecoveryPackage): StateArgs {
    StateArgs(p.officialState.checkpoint, p.entries)
  }

  // ---------------------------------------------------------------- settlement

  datatype ClosingOutput = ClosingOutput(entryIndex: Option<u64>, puzzleHash: Bytes32, amount: u64, coinId: Bytes32)

  datatype MerchantForward = MerchantForward(entryIndex: u64, paymentCoinId: Bytes32, paymentPuzzleHash: Bytes32,
                                             amount: u64, merchantPuzzleHash: Bytes32, forwardedAmount: u64)

  datatype ClosingSimulation = ClosingSimulation(
    stateSequence: u64, checkpointHash: Bytes32, fundingAmount: u64, reservedTotal: u64, userRemainder: u64,
    entryCount: u64, startCloseHeight: u64, deadline: u64, initialPuzzleHash: Bytes32, initialCoinId: Bytes32,
    outputs: seq<ClosingOutput>, forwards: seq<MerchantForward>)

  function InitialCommitment(c: Crypto, p: RecoveryPackage): Bytes32 {
    ClosingStateHash(c, p.channelTerms.networkId, p.fundingCoinId, TermsDigest(c, p.channelTerms), Zeros(8),
                     CheckpointDigest(c, p.channelTerms, p.officialState.checkpoint))
  }

  function InitialPuzzleHash(c: Crypto, m: Modules, p: RecoveryPackage): Bytes32 {
    OneArgPuzzleHash(c, m.initialClosing, InitialCommitment(c, p))
  }

  function InitialCoinId(c: Crypto, m: Modules, p: RecoveryPackage): Bytes32 {
    m.coinId(p.fundingCoinId, InitialPuzzleHash(c, m, p), p.channelTerms.fundingAmount)
  }

  function FundingRun(vm: Vm, p: RecoveryPackage): Result<seq<Condition>, Failed> {
    RunConditions(vm, FundingSpend(p.channelTerms, p.fundingCoinId, StateOf(p)))
  }

  function FinalizeRun(c: Crypto, vm: Vm, p: RecoveryPackage, start: u64, deadline: u64): Result<seq<Condition>, Failed>
  {
    RunConditions(vm, InitialSpend(InitialCommitment(c, p), 2, start, deadline, p.channelTerms, p.fundingCoinId,
                                   StateOf(p), StateOf(p)))
  }

  function PaymentHash(c: Crypto, m: Modules, p: RecoveryPackage, i: u64): Bytes32
    requires i < |p.entries|
  {
    MerchantPaymentPuzzleHash(c, m.merchantPayment, p.channelTerms.networkId, p.fundingCoinId,
                              TermsDigest(c, p.channelTerms), i, p.entries[i].reservationNonce,
                              p.entries[i].merchantPuzzleHash)
  }

  function PaymentRun(c: Crypto, vm: Vm, p: RecoveryPackage, i: u64): Result<seq<Condition>, Failed>
    requires i < |p.entries|
  {
    RunConditions(vm, PaymentSpend(p.channelTerms.networkId, p.fundingCoinId, TermsDigest(c, p.channelTerms), i,
                                   p.entries[i].reservationNonce, p.entries[i].merchantPuzzleHash, p.entries[i].amount))
  }

  /** What the funding spend must assert and create. */
  ghost predicate FundingAccepted(c: Crypto, m: Modules, p: RecoveryPackage, all: seq<Condition>) {
    && RequireU64(all, ASSERT_HEIGHT_RELATIVE, p.channelTerms.closeDelayBlocks).Pass?
    && RequireBytes(all, ASSERT_MY_COIN_ID, p.fundingCoinId).Pass?
    && RequireU64(all, ASSERT_MY_AMOUNT, p.channelTerms.fundingAmount).Pass?
    && |Conditions(all, AGG_SIG_UNSAFE)| == |p.entries| + 1
    && RequireSingleCreate(all, InitialPuzzleHash(c, m, p), p.channelTerms.fundingAmount).Pass?
  }

  ghost predicate EntriesCreated(c: Crypto, m: Modules, p: RecoveryPackage, creates: seq<Condition>)
    requires |creates| == |p.entries| + 1
  {
    forall i: u64 {:trigger PaymentHash(c, m, p, i)} :: i < |p.entries| ==>
      Creates(creates[i], PaymentHash(c, m, p, i), p.entries[i].amount)
  }

  /** What the finalize spend must assert, and the coins it must create: each entry's payment, in order, then the
      rest. */
  ghost predicate FinalizeAccepted(c: Crypto, m: Modules, p: RecoveryPackage, start: u64, deadline: u64,
                                   all: seq<Condition>)
  {
    && RequireU64(all, ASSERT_MY_BIRTH_HEIGHT, start).Pass?
    && RequireU64(all, ASSERT_HEIGHT_ABSOLUTE, deadline).Pass?
    && |Conditions(all, CREATE_COIN)| == |p.entries| + 1
    && EntriesCreated(c, m, p, Conditions(all, CREATE_COIN))
    && Creates(Conditions(all, CREATE_COIN)[|p.entries|], p.channelTerms.userRemainderPuzzleHash,
               p.officialState.checkpoint.userRemainder)
  }

  /** What one forward must assert and create: the whole payment, to the merchant. */
  ghost predicate ForwardAccepted(e: LedgerEntry, run: Result<seq<Condition>, Failed>) {
    && run.Success?
    && RequireU64(run.value, ASSERT_MY_AMOUNT, e.amount).Pass?
    && RequireSingleCreate(run.value, e.merchantPuzzleHash, e.amount).Pass?
  }

  ghost predicate ForwardsAccepted(c: Crypto, vm: Vm, p: RecoveryPackage) {
    forall i: u64 {:trigger PaymentRun(c, vm, p, i)} :: i < |p.entries| ==>
      ForwardAccepted(p.entries[i], PaymentRun(c, vm, p, i))
  }

  ghost predicate FundingPart(c: Crypto, m: Modules, vm: Vm, p: RecoveryPackage) {
    FundingRun(vm, p).Success? && FundingAccepted(c, m, p, FundingRun(vm, p).value)
  }

  ghost predicate FinalizePart(c: Crypto, m: Modules, vm: Vm, p: RecoveryPackage, start: u64, deadline: u64) {
    && FinalizeRun(c, vm, p, start, deadline).Success?
    && FinalizeAccepted(c, m, p, start, deadline, FinalizeRun(c, vm, p, start, deadline).value)
    && ForwardsAccepted(c, vm, p)
  }

  ghost predicate BeforeFinalize(c: Crypto, m: Modules, vm: Vm, p: RecoveryPackage, start: u64) {
    start > 0 && FundingPart(c, m, vm, p) && start + p.channelTerms.challengeBlocks < 0x1_0000_0000_0000_0000
  }

  /** When the spends that settle a package are accepted. */
  ghost predicate SpendsAccepted(c: Crypto, m: Modules, vm: Vm, p: RecoveryPackage, start: u64) {
    && BeforeFinalize(c, m, vm, p, start)
    && FinalizePart(c, m, vm, p, start, start + p.channelTerms.challengeBlocks)
  }

  /** When a settlement is accepted. */
  ghost predicate SettlementAccepted(c: Crypto, m: Modules, vm: Vm, p: RecoveryPackage, start: u64) {
    ValidatePackage(c, p).Pass? && SpendsAccepted(c, m, vm, p, start)
  }

  function PaymentOutput(c: Crypto, m: Modules, p: RecoveryPackage, i: u64): ClosingOutput
    requires i < |p.entries|
  {
    ClosingOutput(Some(i), PaymentHash(c, m, p, i), p.entries[i].amount,
                  m.coinId(InitialCoinId(c, m, p), PaymentHash(c, m, p, i), p.entries[i].amount))
  }

  function RemainderOutput(c: Crypto, m: Modules, p: RecoveryPackage): ClosingOutput {
    var k := p.officialState.checkpoint;
    ClosingOutput(None, p.channelTerms.userRemainderPuzzleHash, k.userRemainder,
                  m.coinId(InitialCoinId(c, m, p), p.channelTerms.userRemainderPuzzleHash, k.userRemainder))
  }

  function ForwardOf(p: RecoveryPackage, i: u64, output: ClosingOutput): MerchantForward
    requires i < |p.entries|
  {
    MerchantForward(i, output.coinId, output.puzzleHash, p.entries[i].amount, p.entries[i].merchantPuzzleHash,
                    p.entries[i].amount)
  }

  /** What is reported of one entry. */
  ghost predicate ReportedAs(c: Crypto, m: Modules, p: RecoveryPackage, i: u64, output: ClosingOutput,
                             forward: MerchantForward)
    requires i < |p.entries|
  {
    output == PaymentOutput(c, m, p, i) && forward == ForwardOf(p, i, output)
  }

  /** The outputs reported: one payment per entry in order, then the user's remainder. */
  ghost predicate Settles(c: Crypto, m: Modules, p: RecoveryPackage, s: ClosingSimulation) {
    && |s.outputs| == |p.entries| + 1 && |s.forwards| == |p.entries|
    && (forall i: u64 {:trigger s.outputs[i]} {:trigger s.forwards[i]} :: i < |p.entries| ==>
          ReportedAs(c, m, p, i, s.outputs[i], s.forwards[i]))
    && s.outputs[|p.entries|] == RemainderOutput(c, m, p)
  }

  /** A settlement's report: beside its outputs, the state it settles, the heights, and the coin it starts from. */
  function Report(c: Crypto, m: Modules, p: RecoveryPackage, start: u64, deadline: u64, outputs: seq<ClosingOutput>,
                  forwards: seq<MerchantForward>): ClosingSimulation
  {
    var k := p.officialState.checkpoint;
    ClosingSimulation(
      k.stateSequence, CheckpointDigest(c, p.channelTerms, k), p.channelTerms.fundingAmount, k.reservedTotal,
      k.userRemainder, k.entryCount, start, deadline, InitialPuzzleHash(c, m, p), InitialCoinId(c, m, p), outputs,
      forwards)
  }

  /** Checks one spend's conditions one after the other. */
  method CheckFunding(c: Crypto, m: Modules, p: RecoveryPackage, all: seq<Condition>) returns (r: Outcome<Failed>)
    ensures r.Pass? <==> FundingAccepted(c, m, p, all)
  {
    r := RequireU64(all, ASSERT_HEIGHT_RELATIVE, p.channelTerms.closeDelayBlocks);
    if r.Fail? {
      return;
    }
    r := RequireBytes(all, ASSERT_MY_COIN_ID, p.fundingCoinId);
    if r.Fail? {
      return;
    }
    r := RequireU64(all, ASSERT_MY_AMOUNT, p.channelTerms.fundingAmount);
    if r.Fail? {
      return;
    }
    if |Conditions(all, AGG_SIG_UNSAFE)| != |p.entries| + 1 {
      return Fail("Funding CLVM emitted an unexpected signature condition count");
    }
    r := RequireSingleCreate(all, InitialPuzzleHash(c, m, p), p.channelTerms.fundingAmount);
  }

  /** One entry's payment, created by the finalize spend and forwarded whole by its own. */
  ghost predicate EntrySettles(c: Crypto, m: Modules, vm: Vm, p: RecoveryPackage, create: Condition, i: u64)
    requires i < |p.entries|
  {
    && Creates(create, PaymentHash(c, m, p, i), p.entries[i].amount)
    && ForwardAccepted(p.entries[i], PaymentRun(c, vm, p, i))
  }

  method SettleEntry(c: Crypto, m: Modules, vm: Vm, p: RecoveryPackage, create: Condition, index: u64)
    returns (ok: bool, output: ClosingOutput)
    requires index < |p.entries|
    ensures ok <==> EntrySettles(c, m, vm, p, create, index)
    ensures output == PaymentOutput(c, m, p, index)
  {
    var entry := p.entries[index];
    var paymentHash := PaymentHash(c, m, p, index);
    output := ClosingOutput(Some(index), paymentHash, entry.amount,
                            m.coinId(InitialCoinId(c, m, p), paymentHash, entry.amount));
    if RequireCreate(create, paymentHash, entry.amount).Fail? {
      return false, output;
    }
    var run := PaymentRun(c, vm, p, index);
    ok := run.Success? && RequireU64(run.value, ASSERT_MY_AMOUNT, entry.amount).Pass?
          && RequireSingleCreate(run.value, entry.merchantPuzzleHash, entry.amount).Pass?;
  }

  /** The first `n` entries settle. */
  ghost predicate SettledBefore(c: Crypto, m: Modules, vm: Vm, p: RecoveryPackage, creates: seq<Condition>, n: u64)
    requires n <= |p.entries| <= |creates|
  {
    forall i: u64 {:trigger EntrySettles(c, m, vm, p, creates[i], i)} :: i < n ==>
      EntrySettles(c, m, vm, p, creates[i], i)
  }

  lemma OneMoreSettled(c: Crypto, m: Modules, vm: Vm, p: RecoveryPackage, creates: seq<Condition>, n: u64)
    requires n < |p.entries| <= |creates| && |p.entries| <= 64
    ensures SettledBefore(c, m, vm, p, creates, n + 1) <==>
            SettledBefore(c, m, vm, p, creates, n) && EntrySettles(c, m, vm, p, creates[n], n)
  {
    if SettledBefore(c, m, vm, p, creates, n + 1) {
      assert EntrySettles(c, m, vm, p, creates[n], n);
    }
  }

  ghost predicate ReportedBefore(c: Crypto, m: Modules, p: RecoveryPackage, outputs: seq<ClosingOutput>,
                                 forwards: seq<MerchantForward>)
    requires |outputs| == |forwards| <= |p.entries| && |p.entries| <= 64
  {
    forall i: u64 {:trigger outputs[i]} {:trigger forwards[i]} :: i < |outputs| ==>
      ReportedAs(c, m, p, i, outputs[i], forwards[i])
  }

  lemma OneMoreReported(c: Crypto, m: Modules, p: RecoveryPackage, outputs: seq<ClosingOutput>,
                        forwards: seq<MerchantForward>, output: ClosingOutput, forward: MerchantForward)
    requires |outputs| == |forwards| < |p.entries| && |p.entries| <= 64
    requires ReportedBefore(c, m, p, outputs, forwards) && ReportedAs(c, m, p, |outputs|, output, forward)
    ensures ReportedBefore(c, m, p, outputs + [output], forwards + [forward])
  {
    forall i: u64 | i <= |outputs|
      ensures ReportedAs(c, m, p, i, (outputs + [output])[i], (forwards + [forward])[i])
    {
      if i < |outputs| {
        assert ReportedAs(c, m, p, i, outputs[i], forwards[i]);
      }
    }
  }

  method SettleEntries(c: Crypto, m: Modules, vm: Vm, p: RecoveryPackage, creates: seq<Condition>)
    returns (ok: bool, outputs: seq<ClosingOutput>, forwards: seq<MerchantForward>)
    requires |creates| == |p.entries| + 1 && |p.entries| <= 64
    ensures ok <==> SettledBefore(c, m, vm, p, creates, |p.entries|)
    ensures ok ==> |outputs| == |p.entries| == |forwards| && ReportedBefore(c, m, p, outputs, forwards)
  {
    outputs, forwards := [], [];
    var index: u64 := 0;
    while index < |p.entries|
      invariant index <= |p.entries| && |outputs| == |forwards| == index
      invariant SettledBefore(c, m, vm, p, creates, index)
      invariant ReportedBefore(c, m, p, outputs, forwards)
    {
      var settled, output := SettleEntry(c, m, vm, p, creates[index], index);
      OneMoreSettled(c, m, vm, p, creates, index);
      if !settled {
        UnsettledStays(c, m, vm, p, creates, index);
        return false, outputs, forwards;
      }
      OneMoreReported(c, m, p, outputs, forwards, output, ForwardOf(p, index, output));
      outputs := outputs + [output];
      forwards := forwards + [ForwardOf(p, index, output)];
      index := index + 1;
    }
    return true, outputs, forwards;
  }

  lemma UnsettledStays(c: Crypto, m: Modules, vm: Vm, p: RecoveryPackage, creates: seq<Condition>, n: u64)
    requires n < |p.entries| <= |creates| && |p.entries| <= 64 && !SettledBefore(c, m, vm, p, creates, n + 1)
    ensures !SettledBefore(c, m, vm, p, creates, |p.entries|)
  {
    var i: u64 :| i <= n && !EntrySettles(c, m, vm, p, creates[i], i);
  }

  /** The loop's verdict and the remainder's, against the two halves of the specification. */
  lemma EntriesSettle(c: Crypto, m: Modules, vm: Vm, p: RecoveryPackage, creates: seq<Condition>)
    requires |creates| == |p.entries| + 1 && |p.entries| <= 64
    ensures SettledBefore(c, m, vm, p, creates, |p.entries|) <==>
              EntriesCreated(c, m, p, creates) && ForwardsAccepted(c, vm, p)
  {
    if EntriesCreated(c, m, p, creates) && ForwardsAccepted(c, vm, p) {
      forall i: u64 | i < |p.entries| ensures EntrySettles(c, m, vm, p, creates[i], i) {
        assert ForwardAccepted(p.entries[i], PaymentRun(c, vm, p, i));
        assert Creates(creates[i], PaymentHash(c, m, p, i), p.entries[i].amount);
      }
    }
    if SettledBefore(c, m, vm, p, creates, |p.entries|) {
      forall i: u64 | i < |p.entries|
        ensures Creates(creates[i], PaymentHash(c, m, p, i), p.entries[i].amount)
        ensures ForwardAccepted(p.entries[i], PaymentRun(c, vm, p, i))
      {
        assert EntrySettles(c, m, vm, p, creates[i], i);
      }
    }
  }

  lemma ReportedSettles(c: Crypto, m: Modules, p: RecoveryPackage, outputs: seq<ClosingOutput>,
                        forwards: seq<MerchantForward>, s: ClosingSimulation)
    requires |p.entries| <= 64 && |outputs| == |p.entries| == |forwards| && ReportedBefore(c, m, p, outputs, forwards)
    requires s.outputs == outputs + [RemainderOutput(c, m, p)] && s.forwards == forwards
    ensures Settles(c, m, p, s)
  {
    forall i: u64 | i < |p.entries| ensures ReportedAs(c, m, p, i, s.outputs[i], s.forwards[i]) {
      assert ReportedAs(c, m, p, i, outputs[i], forwards[i]) && s.outputs[i] == outputs[i];
    }
  }

  lemma ValidIsSmall(c: Crypto, p: RecoveryPackage)
    requires ValidatePackage(c, p).Pass?
    ensures |p.entries| <= 64
  {
    PackageAcceptedIffValid(c, p);
  }

  /** `simulate_recovery_closing`: accepted exactly when every check passes, and then the settlement reported is one
      payment per entry in order and the remainder. An invalid package is reported by its own error. */
  method SimulateRecoveryClosing(c: Crypto, m: Modules, vm: Vm, p: RecoveryPackage, start: u64)
    returns (r: Result<ClosingSimulation, ClosingError>)
    ensures r.Success? == SettlementAccepted(c, m, vm, p, start)
    ensures r.Success? ==> Settles(c, m, p, r.value)
    ensures r.Success? ==>
              r.value == Report(c, m, p, start, start + p.channelTerms.challengeBlocks, r.value.outputs,
                                r.value.forwards)
    ensures ValidatePackage(c, p).Fail? ==> r == Failure(Invalid(ValidatePackage(c, p).error))
    ensures ValidatePackage(c, p).Pass? && r.Failure? ==> r.error.Rejected?
  {
    var valid := ValidatePackage(c, p);
    if valid.Fail? {
      return Failure(Invalid(valid.error));
    }
    ValidIsSmall(c, p);
    r := SimulateSpends(c, m, vm, p, start);
  }

  method SimulateSpends(c: Crypto, m: Modules, vm: Vm, p: RecoveryPackage, start: u64)
    returns (r: Result<ClosingSimulation, ClosingError>)
    requires |p.entries| <= 64
    ensures r.Success? == SpendsAccepted(c, m, vm, p, start)
    ensures r.Success? ==> start + p.channelTerms.challengeBlocks < 0x1_0000_0000_0000_0000
    ensures r.Success? ==> Settles(c, m, p, r.value)
    ensures r.Success? ==>
              r.value == Report(c, m, p, start, start + p.channelTerms.challengeBlocks, r.value.outputs,
                                r.value.forwards)
    ensures r.Failure? ==> r.error.Rejected?
  {
    var before := CheckBeforeFinalize(c, m, vm, p, start);
    if before.Fail? {
      return Failure(Rejected(before.error));
    }
    r := SettleFinalize(c, m, vm, p, start, start + p.channelTerms.challengeBlocks);
  }

  /** Everything that is checked of the package's spends before the finalize spend is run. */
  method CheckBeforeFinalize(c: Crypto, m: Modules, vm: Vm, p: RecoveryPackage, start: u64) returns (r: Outcome<Failed>)
    ensures r.Pass? == BeforeFinalize(c, m, vm, p, start)
  {
    if start == 0 {
      return Fail("hypothetical start-close height must be positive");
    }
    r := CheckFundingRun(c, m, vm, p);
    if r.Pass? && start + p.channelTerms.challengeBlocks >= 0x1_0000_0000_0000_0000 {
      return Fail("challenge deadline overflow");
    }
  }

  method CheckFundingRun(c: Crypto, m: Modules, vm: Vm, p: RecoveryPackage) returns (r: Outcome<Failed>)
    ensures r.Pass? <==> FundingPart(c, m, vm, p)
  {
    var funding := FundingRun(vm, p);
    if funding.Failure? {
      return Fail(funding.error);
    }
    r := CheckFunding(c, m, p, funding.value);
  }

  method SettleFinalize(c: Crypto, m: Modules, vm: Vm, p: RecoveryPackage, start: u64, deadline: u64)
    returns (r: Result<ClosingSimulation, ClosingError>)
    requires |p.entries| <= 64
    ensures r.Success? == FinalizePart(c, m, vm, p, start, deadline)
    ensures r.Success? ==> Settles(c, m, p, r.value)
    ensures r.Success? ==> r.value == Report(c, m, p, start, deadline, r.value.outputs, r.value.forwards)
    ensures r.Failure? ==> r.error.Rejected?
  {
    var finalize := FinalizeRun(c, vm, p, start, deadline);
    if finalize.Failure? {
      return Failure(Rejected(finalize.error));
    }
    if RequireU64(finalize.value, ASSERT_MY_BIRTH_HEIGHT, start).Fail?
        || RequireU64(finalize.value, ASSERT_HEIGHT_ABSOLUTE, deadline).Fail? {
      return Failure(Rejected("Initial Closing FINALIZE heights"));
    }
    var creates := Conditions(finalize.value, CREATE_COIN);
    if |creates| != |p.entries| + 1 {
      return Failure(Rejected("Initial Closing FINALIZE emitted an unexpected output count"));
    }
    var ok, outputs, forwards := SettleEntries(c, m, vm, p, creates);
    EntriesSettle(c, m, vm, p, creates);
    if !ok {
      return Failure(Rejected("CLVM output does not match the expected settlement"));
    }
    var k := p.officialState.checkpoint;
    if RequireCreate(creates[|creates| - 1], p.channelTerms.userRemainderPuzzleHash, k.userRemainder).Fail? {
      return Failure(Rejected("CLVM CREATE_COIN output does not match the expected settlement"));
    }
    var simulation := Report(c, m, p, start, deadline, outputs + [RemainderOutput(c, m, p)], forwards);
    ReportedSettles(c, m, p, outputs, forwards, simulation);
    return Success(simulation);
  }

  // ---------------------------------------------------------------- which spends are run

  /** The finalizing spend of a package: mode 2, from the coin that commits to its state, at these heights. */
  ghost predicate Finalizes(c: Crypto, p: RecoveryPackage, start: u64, spend: Spend) {
    var state := StateArgs(p.officialState.checkpoint, p.entries);
    && spend.InitialSpend? && spend.mode == 2
    && spend.birth == start && spend.deadline == start + p.channelTerms.challengeBlocks
    && spend.terms == p.channelTerms && spend.coin == p.fundingCoinId
    && spend.current == state && spend.next == state
    && spend.commitment ==
       c.sha256(ClosingStatePreimage(p.channelTerms.networkId, p.fundingCoinId, TermsDigest(c, p.channelTerms),
                                     Zeros(8), CheckpointDigest(c, p.channelTerms, p.officialState.checkpoint)))
  }

  /** The spend that forwards one entry's payment. */
  ghost predicate Forwards(c: Crypto, p: RecoveryPackage, i: nat, spend: Spend)
    requires i < |p.entries|
  {
    && spend.PaymentSpend? && spend.index == i
    && spend.networkId == p.channelTerms.networkId && spend.coin == p.fundingCoinId
    && spend.termsHash == TermsDigest(c, p.channelTerms)
    && spend.nonce == p.entries[i].reservationNonce && spend.merchant == p.entries[i].merchantPuzzleHash
    && spend.amount == p.entries[i].amount
  }

  /** What a settlement says of one entry: the coin its forward spends, out of the coin that is finalized. */
  ghost predicate SaysForward(c: Crypto, m: Modules, p: RecoveryPackage, s: ClosingSimulation, i: nat, spend: Spend)
    requires i < |p.entries| && i < |s.outputs| && i < |s.forwards| && spend.PaymentSpend?
  {
    var output, forward, entry := s.outputs[i], s.forwards[i], p.entries[i];
    && output.entryIndex == Some(i) && output.amount == entry.amount
    && output.puzzleHash == RevealedHash(c, m, spend)
    && output.coinId == m.coinId(s.initialCoinId, output.puzzleHash, output.amount)
    && forward.entryIndex == i && forward.paymentCoinId == output.coinId
    && forward.paymentPuzzleHash == output.puzzleHash
    && forward.merchantPuzzleHash == entry.merchantPuzzleHash
    && forward.amount == forward.forwardedAmount == entry.amount
  }

  /** What a settlement says of its package, its heights, the coin it finalizes and the remainder. */
  ghost predicate SaysSettlement(c: Crypto, m: Modules, p: RecoveryPackage, start: u64, s: ClosingSimulation,
                                 finalize: Spend)
    requires finalize.InitialSpend?
  {
    var k, n := p.officialState.checkpoint, |p.entries|;
    && s.stateSequence == k.stateSequence && s.checkpointHash == CheckpointDigest(c, p.channelTerms, k)
    && s.fundingAmount == p.channelTerms.fundingAmount && s.reservedTotal == Total(p.entries)
    && s.userRemainder == p.channelTerms.fundingAmount - Total(p.entries) && s.entryCount == n
    && s.startCloseHeight == start && s.deadline == start + p.channelTerms.challengeBlocks
    && s.initialPuzzleHash == RevealedHash(c, m, finalize)
    && s.initialCoinId == m.coinId(p.fundingCoinId, s.initialPuzzleHash, p.channelTerms.fundingAmount)
    && |s.outputs| == n + 1 && |s.forwards| == n
    && s.outputs[n].entryIndex.None? && s.outputs[n].puzzleHash == p.channelTerms.userRemainderPuzzleHash
    && s.outputs[n].amount == s.userRemainder
    && s.outputs[n].coinId == m.coinId(s.initialCoinId, s.outputs[n].puzzleHash, s.userRemainder)
  }

  /** The conditions a spend is run to. */
  function ConditionsUnder(vm: Vm, spend: Spend): seq<Condition> {
    var run := RunConditions(vm, spend);
    if run.Success? then run.value else []
  }

  /** The funding spend of a package. */
  function StartOfClosing(p: RecoveryPackage): Spend {
    FundingSpend(p.channelTerms, p.fundingCoinId, StateArgs(p.officialState.checkpoint, p.entries))
  }

  lemma SettlementSays(c: Crypto, m: Modules, p: RecoveryPackage, start: u64, s: ClosingSimulation, finalize: Spend)
    requires ValidPackage(c, p) && start + p.channelTerms.challengeBlocks < 0x1_0000_0000_0000_0000
    requires Settles(c, m, p, s) && Finalizes(c, p, start, finalize)
    requires s == Report(c, m, p, start, start + p.channelTerms.challengeBlocks, s.outputs, s.forwards)
    ensures SaysSettlement(c, m, p, start, s, finalize)
  {
  }

  lemma ForwardSays(c: Crypto, m: Modules, p: RecoveryPackage, start: u64, s: ClosingSimulation, i: u64, spend: Spend)
    requires |p.entries| <= 64 && i < |p.entries| && start + p.channelTerms.challengeBlocks < 0x1_0000_0000_0000_0000
    requires Settles(c, m, p, s) && Forwards(c, p, i, spend)
    requires s == Report(c, m, p, start, start + p.channelTerms.challengeBlocks, s.outputs, s.forwards)
    ensures SaysForward(c, m, p, s, i, spend)
  {
    assert ReportedAs(c, m, p, i, s.outputs[i], s.forwards[i]);
  }

  /** The forward of entry `i` is run on the coin the finalize created for it. */
  ghost predicate ForwardsCreated(c: Crypto, m: Modules, vm: Vm, p: RecoveryPackage, finalized: seq<Condition>, i: nat,
                                  spend: Spend)
    requires i < |p.entries|
  {
    && Forwards(c, p, i, spend) && RunConditions(vm, spend).Success?
    && ForwardAccepted(p.entries[i], RunConditions(vm, spend))
    && i < |Conditions(finalized, CREATE_COIN)|
    && Creates(Conditions(finalized, CREATE_COIN)[i], RevealedHash(c, m, spend), p.entries[i].amount)
  }

  lemma EntryIsForwarded(c: Crypto, m: Modules, vm: Vm, p: RecoveryPackage, start: u64, deadline: u64,
                         finalized: seq<Condition>, i: u64) returns (spend: Spend)
    requires i < |p.entries| && FinalizeAccepted(c, m, p, start, deadline, finalized) && ForwardsAccepted(c, vm, p)
    ensures ForwardsCreated(c, m, vm, p, finalized, i, spend)
  {
    spend := PaymentSpend(p.channelTerms.networkId, p.fundingCoinId, TermsDigest(c, p.channelTerms), i,
                          p.entries[i].reservationNonce, p.entries[i].merchantPuzzleHash, p.entries[i].amount);
    assert ForwardAccepted(p.entries[i], PaymentRun(c, vm, p, i));
    assert Creates(Conditions(finalized, CREATE_COIN)[i], PaymentHash(c, m, p, i), p.entries[i].amount);
  }

  /** The start of closing asserts the funding coin's own id, one delay and one amount, checks a signature for the state
      and one for each entry, and creates one coin of the whole amount. */
  ghost predicate StartSays(p: RecoveryPackage, all: seq<Condition>, initialPuzzleHash: Bytes32) {
    && |Conditions(all, ASSERT_MY_COIN_ID)| == 1 && Conditions(all, ASSERT_MY_COIN_ID)[0].args == [p.fundingCoinId]
    && RequireU64(all, ASSERT_HEIGHT_RELATIVE, p.channelTerms.closeDelayBlocks).Pass?
    && RequireU64(all, ASSERT_MY_AMOUNT, p.channelTerms.fundingAmount).Pass?
    && |Conditions(all, AGG_SIG_UNSAFE)| == |p.entries| + 1
    && |Conditions(all, CREATE_COIN)| == 1
    && Creates(Conditions(all, CREATE_COIN)[0], initialPuzzleHash, p.channelTerms.fundingAmount)
  }

  lemma StartAcceptedIff(c: Crypto, m: Modules, p: RecoveryPackage, all: seq<Condition>)
    ensures FundingAccepted(c, m, p, all) <==> StartSays(p, all, InitialPuzzleHash(c, m, p))
  {
  }

  lemma StartRuns(c: Crypto, m: Modules, vm: Vm, p: RecoveryPackage, start: u64)
    requires SpendsAccepted(c, m, vm, p, start)
    ensures RunConditions(vm, StartOfClosing(p)).Success?
    ensures FundingAccepted(c, m, p, ConditionsUnder(vm, StartOfClosing(p)))
    ensures start + p.channelTerms.challengeBlocks < 0x1_0000_0000_0000_0000
  {
  }

  lemma FinalizeRuns(c: Crypto, m: Modules, vm: Vm, p: RecoveryPackage, start: u64) returns (finalize: Spend)
    requires SpendsAccepted(c, m, vm, p, start)
    ensures Finalizes(c, p, start, finalize) && RunConditions(vm, finalize).Success?
  {
    finalize := InitialSpend(InitialCommitment(c, p), 2, start, start + p.channelTerms.challengeBlocks, p.channelTerms,
                             p.fundingCoinId, StateOf(p), StateOf(p));
  }

  lemma FinalizesItsCoin(c: Crypto, m: Modules, p: RecoveryPackage, start: u64, finalize: Spend)
    requires Finalizes(c, p, start, finalize)
    ensures RevealedHash(c, m, finalize) == InitialPuzzleHash(c, m, p)
  {
  }

  /** An accepted settlement has run the start of closing, and then the finalize, in its own mode, of exactly the coin
      that start created; its report names that coin, its id, and the package's state and totals. */
  lemma SettlementRuns(c: Crypto, m: Modules, vm: Vm, p: RecoveryPackage, start: u64, s: ClosingSimulation)
    returns (finalize: Spend)
    requires SettlementAccepted(c, m, vm, p, start) && Settles(c, m, p, s)
    requires s == Report(c, m, p, start, start + p.channelTerms.challengeBlocks, s.outputs, s.forwards)
    ensures RunConditions(vm, StartOfClosing(p)).Success?
    ensures Finalizes(c, p, start, finalize) && RunConditions(vm, finalize).Success?
    ensures StartSays(p, ConditionsUnder(vm, StartOfClosing(p)), RevealedHash(c, m, finalize))
    ensures SaysSettlement(c, m, p, start, s, finalize)
  {
    PackageAcceptedIffValid(c, p);
    StartRuns(c, m, vm, p, start);
    finalize := FinalizeRuns(c, m, vm, p, start);
    FinalizesItsCoin(c, m, p, start, finalize);
    StartAcceptedIff(c, m, p, ConditionsUnder(vm, StartOfClosing(p)));
    SettlementSays(c, m, p, start, s, finalize);
  }

  lemma OneFinalize(c: Crypto, m: Modules, vm: Vm, p: RecoveryPackage, start: u64, finalize: Spend)
    requires SpendsAccepted(c, m, vm, p, start) && Finalizes(c, p, start, finalize)
    ensures FinalizeAccepted(c, m, p, start, start + p.channelTerms.challengeBlocks, ConditionsUnder(vm, finalize))
    ensures ForwardsAccepted(c, vm, p)
  {
  }

  /** And for every entry it has run the forward of exactly the coin that finalize created for it; its report names that
      coin, its id, the merchant and the amount. */
  lemma SettlementForwards(c: Crypto, m: Modules, vm: Vm, p: RecoveryPackage, start: u64, s: ClosingSimulation,
                           finalize: Spend, i: u64) returns (forward: Spend)
    requires SettlementAccepted(c, m, vm, p, start) && Settles(c, m, p, s) && i < |p.entries|
    requires s == Report(c, m, p, start, start + p.channelTerms.challengeBlocks, s.outputs, s.forwards)
    requires Finalizes(c, p, start, finalize)
    ensures ForwardsCreated(c, m, vm, p, ConditionsUnder(vm, finalize), i, forward)
    ensures SaysForward(c, m, p, s, i, forward)
  {
    PackageAcceptedIffValid(c, p);
    OneFinalize(c, m, vm, p, start, finalize);
    forward := EntryIsForwarded(c, m, vm, p, start, start + p.channelTerms.challengeBlocks,
                                ConditionsUnder(vm, finalize), i);
    ForwardSays(c, m, p, start, s, i, forward);
  }

  // ---------------------------------------------------------------- conservation

  function Sum(amounts: seq<nat>): nat {
    if amounts == [] then 0 else Sum(amounts[..|amounts| - 1]) + amounts[|amounts| - 1]
  }

  /** Amounts that are nowhere below what is expected add up to it exactly when they are equal to it. */
  lemma {:induction false} SumsCompare(a: seq<nat>, b: seq<nat>)
    requires |a| == |b| && (forall i :: 0 <= i < |a| ==> a[i] >= b[i])
    ensures Sum(a) >= Sum(b) && (Sum(a) == Sum(b) <==> a == b)
  {
    if a != [] {
      var n := |a| - 1;
      SumsCompare(a[..n], b[..n]);
      if a == b {
        assert a[..n] == b[..n];
      } else if a[..n] == b[..n] {
        assert a[n] != b[n] by {
          assert a == a[..n] + [a[n]] && b == b[..n] + [b[n]];
        }
      }
    }
  }

  /** What each coin should be worth: the entries' amounts in order, then the remainder. */
  function Expected(p: RecoveryPackage): (amounts: seq<nat>)
    ensures |amounts| == |p.entries| + 1
  {
    seq(|p.entries|, i requires 0 <= i < |p.entries| => p.entries[i].amount)
        + [p.officialState.checkpoint.userRemainder]
  }

  lemma {:induction false} AmountsTotal(entries: seq<LedgerEntry>, amounts: seq<nat>)
    requires |amounts| == |entries| && (forall i :: 0 <= i < |entries| ==> amounts[i] == entries[i].amount)
    ensures Sum(amounts) == Total(entries)
  {
    if entries != [] {
      AmountsTotal(Front(entries), amounts[..|amounts| - 1]);
    }
  }

  lemma ExpectedAddsUp(p: RecoveryPackage)
    ensures Sum(Expected(p)) == Total(p.entries) + p.officialState.checkpoint.userRemainder
  {
    var n := |p.entries|;
    var amounts := Expected(p);
    assert amounts[..|amounts| - 1] == amounts[..n];
    AmountsTotal(p.entries, amounts[..n]);
  }

  lemma ExpectedIsFunding(c: Crypto, p: RecoveryPackage)
    requires ValidPackage(c, p)
    ensures Sum(Expected(p)) == p.channelTerms.fundingAmount
  {
    ExpectedAddsUp(p);
  }

  function OutputAmounts(outputs: seq<ClosingOutput>): (amounts: seq<nat>)
    ensures |amounts| == |outputs|
  {
    seq(|outputs|, i requires 0 <= i < |outputs| => outputs[i].amount)
  }

  lemma ReportedAmounts(c: Crypto, m: Modules, p: RecoveryPackage, s: ClosingSimulation)
    requires |p.entries| <= 64 && Settles(c, m, p, s)
    ensures OutputAmounts(s.outputs) == Expected(p)
  {
    forall i | 0 <= i <= |p.entries| ensures OutputAmounts(s.outputs)[i] == Expected(p)[i] {
      if i < |p.entries| {
        assert ReportedAs(c, m, p, i, s.outputs[i], s.forwards[i]);
      }
    }
  }

  /** What a settlement reports adds up to the funding. */
  lemma ReportedSettlementConserves(c: Crypto, m: Modules, p: RecoveryPackage, s: ClosingSimulation)
    requires ValidPackage(c, p) && Settles(c, m, p, s)
    ensures Sum(OutputAmounts(s.outputs)) == p.channelTerms.fundingAmount
  {
    ReportedAmounts(c, m, p, s);
    ExpectedIsFunding(c, p);
  }

  // ---------------------------------------------------------------- what the accepted spends really do

  /** The coins a finalize should create: each entry's payment, in order, then the user's remainder. */
  function ExpectedCoins(c: Crypto, m: Modules, p: RecoveryPackage): (coins: seq<Coin>)
    requires |p.entries| <= 64
    ensures |coins| == |p.entries| + 1
  {
    seq(|p.entries|, i requires 0 <= i < |p.entries| => Coin(PaymentHash(c, m, p, i), p.entries[i].amount))
    + [Coin(p.channelTerms.userRemainderPuzzleHash, p.officialState.checkpoint.userRemainder)]
  }

  lemma FinalizeCounts(c: Crypto, m: Modules, p: RecoveryPackage, start: u64, deadline: u64, all: seq<Condition>,
                       i: u64)
    requires |p.entries| <= 64 && FinalizeAccepted(c, m, p, start, deadline, all) && i <= |p.entries|
    ensures CountsAs(Conditions(all, CREATE_COIN)[i], ExpectedCoins(c, m, p)[i])
  {
    if i < |p.entries| {
      assert Creates(Conditions(all, CREATE_COIN)[i], PaymentHash(c, m, p, i), p.entries[i].amount);
    }
  }

  /** The finalize asserts its birth and its deadline, and creates exactly the coins expected. */
  ghost predicate FinalizeDoes(c: Crypto, m: Modules, p: RecoveryPackage, start: u64, deadline: u64,
                               all: seq<Condition>)
    requires |p.entries| <= 64
  {
    && Asserts(all, ASSERT_MY_BIRTH_HEIGHT, start) && Asserts(all, ASSERT_HEIGHT_ABSOLUTE, deadline)
    && CreatedCoins(all) == ExpectedCoins(c, m, p)
  }

  ghost predicate ExactCreates(all: seq<Condition>) {
    forall i :: 0 <= i < |Conditions(all, CREATE_COIN)| ==> ExactCreate(Conditions(all, CREATE_COIN)[i])
  }

  lemma FinalizeCreatesIff(c: Crypto, m: Modules, p: RecoveryPackage, start: u64, deadline: u64, all: seq<Condition>)
    requires |p.entries| <= 64 && FinalizeAccepted(c, m, p, start, deadline, all)
    ensures CreatedCoins(all) == ExpectedCoins(c, m, p) <==> ExactCreates(all)
  {
    forall i | 0 <= i <= |p.entries| ensures CountsAs(Conditions(all, CREATE_COIN)[i], ExpectedCoins(c, m, p)[i]) {
      FinalizeCounts(c, m, p, start, deadline, all, i);
    }
    CountedAreCreatedIff(all, ExpectedCoins(c, m, p));
  }

  /** An accepted finalize does what was checked exactly when every condition counted is named by its opcode's one byte
      and every amount and height counted fits 64 bits. */
  lemma FinalizeDoesIff(c: Crypto, m: Modules, p: RecoveryPackage, start: u64, deadline: u64, all: seq<Condition>)
    requires |p.entries| <= 64 && FinalizeAccepted(c, m, p, start, deadline, all)
    ensures FinalizeDoes(c, m, p, start, deadline, all) <==>
            && ExactAssertion(Conditions(all, ASSERT_MY_BIRTH_HEIGHT)[0])
            && ExactAssertion(Conditions(all, ASSERT_HEIGHT_ABSOLUTE)[0])
            && ExactCreates(all)
  {
    RequiredIsAssertedIff(all, ASSERT_MY_BIRTH_HEIGHT, start);
    RequiredIsAssertedIff(all, ASSERT_HEIGHT_ABSOLUTE, deadline);
    FinalizeCreatesIff(c, m, p, start, deadline, all);
  }

  /** An accepted forward pays the merchant one coin of the whole amount, and asserts that amount, exactly when the two
      opcodes are one byte and the two amounts fit 64 bits. */
  lemma ForwardPaysIff(e: LedgerEntry, run: Result<seq<Condition>, Failed>)
    requires ForwardAccepted(e, run)
    ensures Asserts(run.value, ASSERT_MY_AMOUNT, e.amount)
            && CreatedCoins(run.value) == [Coin(e.merchantPuzzleHash, e.amount)]
            <==> && ExactAssertion(Conditions(run.value, ASSERT_MY_AMOUNT)[0])
                 && ExactCreate(Conditions(run.value, CREATE_COIN)[0])
  {
    RequiredIsAssertedIff(run.value, ASSERT_MY_AMOUNT, e.amount);
    RequiredIsCreatedIff(run.value, e.merchantPuzzleHash, e.amount);
  }

  /** An accepted start of closing waits out the delay, and moves the whole funding into the initial closing coin,
      exactly when the opcodes counted are one byte and the integers fit 64 bits. */
  lemma FundingMovesIff(c: Crypto, m: Modules, p: RecoveryPackage, all: seq<Condition>)
    requires FundingAccepted(c, m, p, all)
    ensures && Asserts(all, ASSERT_HEIGHT_RELATIVE, p.channelTerms.closeDelayBlocks)
            && Asserts(all, ASSERT_MY_AMOUNT, p.channelTerms.fundingAmount)
            && CreatedCoins(all) == [Coin(InitialPuzzleHash(c, m, p), p.channelTerms.fundingAmount)]
            <==> && ExactAssertion(Conditions(all, ASSERT_HEIGHT_RELATIVE)[0])
                 && ExactAssertion(Conditions(all, ASSERT_MY_AMOUNT)[0])
                 && ExactCreate(Conditions(all, CREATE_COIN)[0])
  {
    RequiredIsAssertedIff(all, ASSERT_HEIGHT_RELATIVE, p.channelTerms.closeDelayBlocks);
    RequiredIsAssertedIff(all, ASSERT_MY_AMOUNT, p.channelTerms.fundingAmount);
    RequiredIsCreatedIff(all, InitialPuzzleHash(c, m, p), p.channelTerms.fundingAmount);
  }

  // ---------------------------------------------------------------- what the created coins are worth

  function Amounts(coins: seq<Coin>): (amounts: seq<nat>)
    ensures |amounts| == |coins|
  {
    seq(|coins|, i requires 0 <= i < |coins| => coins[i].amount)
  }

  function Worth(coins: seq<Coin>): nat {
    Sum(Amounts(coins))
  }

  /** What one counted condition adds: nothing, unless it is really named so. */
  function Adds(condition: Condition): nat {
    if Named(condition) then CreatedCoin(condition).amount else 0
  }

  function EachAdds(counted: seq<Condition>): (amounts: seq<nat>)
    ensures |amounts| == |counted|
    ensures forall i :: 0 <= i < |counted| ==> amounts[i] == Adds(counted[i])
  {
    seq(|counted|, i requires 0 <= i < |counted| => Adds(counted[i]))
  }

  lemma {:induction false} SumFromFront(a: seq<nat>)
    requires a != []
    ensures Sum(a) == a[0] + Sum(a[1..])
  {
    var n := |a| - 1;
    if n > 0 {
      SumFromFront(a[..n]);
      assert a[..n][1..] == a[1..][..n - 1];
    }
  }

  lemma {:induction false} SumAtLeast(a: seq<nat>, i: nat)
    requires i < |a|
    ensures Sum(a) >= a[i]
  {
    if i < |a| - 1 {
      SumAtLeast(a[..|a| - 1], i);
    }
  }

  lemma OneMoreCoin(first: Condition, others: seq<Condition>)
    ensures Worth(CoinsOf([first] + others)) == CreatedCoin(first).amount + Worth(CoinsOf(others))
  {
    var amounts := Amounts(CoinsOf([first] + others));
    SumFromFront(amounts);
    assert amounts[1..] == Amounts(CoinsOf(others));
  }

  lemma EachAddsMore(first: Condition, others: seq<Condition>)
    ensures Sum(EachAdds([first] + others)) == Adds(first) + Sum(EachAdds(others))
  {
    var adds := EachAdds([first] + others);
    SumFromFront(adds);
    assert adds[1..] == EachAdds(others);
  }

  lemma {:induction false} NamedAddUp(counted: seq<Condition>)
    ensures Worth(CoinsOf(OnlyNamed(counted))) == Sum(EachAdds(counted))
  {
    if counted != [] {
      var first, others := counted[0], counted[1..];
      NamedAddUp(others);
      assert counted == [first] + others;
      EachAddsMore(first, others);
      OneMoreCoin(first, OnlyNamed(others));
      assert OnlyNamed(counted) == if Named(first) then [first] + OnlyNamed(others) else OnlyNamed(others);
    }
  }

  lemma CountedAmount(condition: Condition, coin: Coin)
    requires CountsAs(condition, coin)
    ensures ExactCreate(condition) ==> Adds(condition) == coin.amount
    ensures Named(condition) && !FitsU64(condition.args[1]) ==> Adds(condition) >= 0x1_0000_0000_0000_0000
  {
    FoldedIsMeantIff(condition.args[1], coin.amount);
  }

  predicate AmountFits(condition: Condition) {
    |condition.args| >= 2 && FitsU64(condition.args[1])
  }

  ghost predicate NamedAmountsFit(counted: seq<Condition>) {
    forall i :: 0 <= i < |counted| ==> Named(counted[i]) ==> AmountFits(counted[i])
  }

  predicate ExpectedWorth(condition: Condition, coin: Coin) {
    if Named(condition) then AmountFits(condition) else coin.amount == 0
  }

  /** A misnamed condition leaves out the coin it was counted for, which only an empty coin can afford. */
  ghost predicate WorthAsExpected(counted: seq<Condition>, coins: seq<Coin>)
    requires |counted| == |coins|
  {
    forall i :: 0 <= i < |counted| ==> ExpectedWorth(counted[i], coins[i])
  }

  /** Nothing counted has an amount that does not fit: the coins are worth at most what is expected, and exactly that
      when nothing misnamed was to be worth something. */
  lemma FittingCoinsCompare(counted: seq<Condition>, coins: seq<Coin>)
    requires |counted| == |coins| && (forall i :: 0 <= i < |coins| ==> CountsAs(counted[i], coins[i]))
    requires NamedAmountsFit(counted)
    ensures Sum(EachAdds(counted)) <= Worth(coins)
    ensures Sum(EachAdds(counted)) == Worth(coins) <==> WorthAsExpected(counted, coins)
  {
    var adds, amounts := EachAdds(counted), Amounts(coins);
    forall i | 0 <= i < |coins|
      ensures amounts[i] >= adds[i] && (amounts[i] == adds[i] <==> Named(counted[i]) || coins[i].amount == 0)
    {
      assert CountsAs(counted[i], coins[i]);
      CountedAmount(counted[i], coins[i]);
    }
    SumsCompare(amounts, adds);
    if amounts == adds {
      forall i | 0 <= i < |counted| ensures ExpectedWorth(counted[i], coins[i]) {
        assert amounts[i] == adds[i];
      }
    }
    if WorthAsExpected(counted, coins) {
      forall i | 0 <= i < |coins| ensures amounts[i] == adds[i] {
        assert ExpectedWorth(counted[i], coins[i]);
      }
    }
  }

  /** An amount that does not fit is worth more than any amount that does. */
  lemma SomeAmountIsLong(counted: seq<Condition>, coins: seq<Coin>)
    requires |counted| == |coins| && (forall i :: 0 <= i < |coins| ==> CountsAs(counted[i], coins[i]))
    requires !NamedAmountsFit(counted)
    ensures Sum(EachAdds(counted)) >= 0x1_0000_0000_0000_0000
    ensures !WorthAsExpected(counted, coins)
  {
    var i :| 0 <= i < |counted| && Named(counted[i]) && !AmountFits(counted[i]);
    assert CountsAs(counted[i], coins[i]) && !ExpectedWorth(counted[i], coins[i]);
    CountedAmount(counted[i], coins[i]);
    SumAtLeast(EachAdds(counted), i);
  }

  lemma ExpectedCoinsAmounts(c: Crypto, m: Modules, p: RecoveryPackage)
    requires |p.entries| <= 64
    ensures Amounts(ExpectedCoins(c, m, p)) == Expected(p)
  {
  }

  lemma ExpectedCoinsWorth(c: Crypto, m: Modules, p: RecoveryPackage)
    requires ValidPackage(c, p)
    ensures Worth(ExpectedCoins(c, m, p)) == p.channelTerms.fundingAmount
  {
    ExpectedCoinsAmounts(c, m, p);
    ExpectedIsFunding(c, p);
  }

  lemma CountedWorth(counted: seq<Condition>, coins: seq<Coin>)
    requires |counted| == |coins| && (forall i :: 0 <= i < |coins| ==> CountsAs(counted[i], coins[i]))
    requires Worth(coins) < 0x1_0000_0000_0000_0000
    ensures Worth(CoinsOf(OnlyNamed(counted))) == Worth(coins) <==> WorthAsExpected(counted, coins)
    ensures Worth(CoinsOf(OnlyNamed(counted))) <= Worth(coins) <==> NamedAmountsFit(counted)
  {
    NamedAddUp(counted);
    if NamedAmountsFit(counted) {
      FittingCoinsCompare(counted, coins);
    } else {
      SomeAmountIsLong(counted, coins);
    }
  }

  /** For any output of the CLVM, the coins an accepted finalize creates are worth the funding exactly when every amount
      under a real CREATE_COIN fits 64 bits and every misnamed condition stood for an empty coin. They are worth more
      exactly when some such amount does not fit. */
  lemma FinalizeConservesIff(c: Crypto, m: Modules, p: RecoveryPackage, start: u64, deadline: u64, all: seq<Condition>)
    requires ValidPackage(c, p) && FinalizeAccepted(c, m, p, start, deadline, all)
    ensures Worth(CreatedCoins(all)) == p.channelTerms.fundingAmount <==>
            WorthAsExpected(Conditions(all, CREATE_COIN), ExpectedCoins(c, m, p))
    ensures Worth(CreatedCoins(all)) > p.channelTerms.fundingAmount <==> !NamedAmountsFit(Conditions(all, CREATE_COIN))
    ensures ExactCreates(all) ==> Worth(CreatedCoins(all)) == p.channelTerms.fundingAmount
  {
    var counted, coins := Conditions(all, CREATE_COIN), ExpectedCoins(c, m, p);
    forall i | 0 <= i < |coins| ensures CountsAs(counted[i], coins[i]) {
      FinalizeCounts(c, m, p, start, deadline, all, i);
    }
    ExpectedCoinsWorth(c, m, p);
    CountedWorth(counted, coins);
    MeantAreCounted(all, CREATE_COIN);
    FinalizeCreatesIff(c, m, p, start, deadline, all);
  }

  // ---------------------------------------------------------------- an accepted output that pays nobody

  function MisnamedCreates(coins: seq<Coin>): (creates: seq<Condition>)
    requires forall i :: 0 <= i < |coins| ==> coins[i].amount < 0x1_0000_0000_0000_0000
    ensures |creates| == |coins|
    ensures forall i :: 0 <= i < |coins| ==>
              creates[i] == Condition(LongAtom(CREATE_COIN), [coins[i].puzzleHash, U64(coins[i].amount)])
  {
    seq(|coins|, i requires 0 <= i < |coins| =>
      Condition(LongAtom(CREATE_COIN), [coins[i].puzzleHash, U64(coins[i].amount)]))
  }

  /** Heights as asked, and every output under a nine-byte opcode that folds to CREATE_COIN. */
  function MisnamedFinalize(c: Crypto, m: Modules, p: RecoveryPackage, start: u64, deadline: u64): seq<Condition>
    requires |p.entries| <= 64
  {
    [Asserting(ASSERT_MY_BIRTH_HEIGHT, U64(start)), Asserting(ASSERT_HEIGHT_ABSOLUTE, U64(deadline))]
    + MisnamedCreates(ExpectedCoins(c, m, p))
  }

  lemma ConditionsOfThree(birth: Condition, height: Condition, creates: seq<Condition>, opcode: u64)
    requires birth.Opcode() == ASSERT_MY_BIRTH_HEIGHT && height.Opcode() == ASSERT_HEIGHT_ABSOLUTE
    requires forall i :: 0 <= i < |creates| ==> creates[i].Opcode() == CREATE_COIN
    ensures Conditions([birth, height] + creates, opcode) ==
            if opcode == ASSERT_MY_BIRTH_HEIGHT then [birth]
            else if opcode == ASSERT_HEIGHT_ABSOLUTE then [height]
            else if opcode == CREATE_COIN then creates
            else []
  {
    ConditionsOfBoth([birth, height], creates, opcode);
    ConditionsOfOneOpcode(creates, CREATE_COIN, opcode);
    ConditionsOfBoth([birth], [height], opcode);
    ConditionsOfOneOpcode([birth], ASSERT_MY_BIRTH_HEIGHT, opcode);
    ConditionsOfOneOpcode([height], ASSERT_HEIGHT_ABSOLUTE, opcode);
    assert [birth] + [height] == [birth, height];
  }

  lemma MisnamedCounts(c: Crypto, m: Modules, p: RecoveryPackage, start: u64, deadline: u64)
    requires |p.entries| <= 64
    ensures var all := MisnamedFinalize(c, m, p, start, deadline);
            && Conditions(all, ASSERT_MY_BIRTH_HEIGHT) == [Asserting(ASSERT_MY_BIRTH_HEIGHT, U64(start))]
            && Conditions(all, ASSERT_HEIGHT_ABSOLUTE) == [Asserting(ASSERT_HEIGHT_ABSOLUTE, U64(deadline))]
            && Conditions(all, CREATE_COIN) == MisnamedCreates(ExpectedCoins(c, m, p))
  {
    var birth := Asserting(ASSERT_MY_BIRTH_HEIGHT, U64(start));
    var height := Asserting(ASSERT_HEIGHT_ABSOLUTE, U64(deadline));
    var creates := MisnamedCreates(ExpectedCoins(c, m, p));
    OpcodeAtomIs(ASSERT_MY_BIRTH_HEIGHT);
    OpcodeAtomIs(ASSERT_HEIGHT_ABSOLUTE);
    LongAtomReadsShort(CREATE_COIN);
    ConditionsOfThree(birth, height, creates, ASSERT_MY_BIRTH_HEIGHT);
    ConditionsOfThree(birth, height, creates, ASSERT_HEIGHT_ABSOLUTE);
    ConditionsOfThree(birth, height, creates, CREATE_COIN);
  }

  /** Whatever the package, this output passes every check of the finalize and creates no coin at all. */
  lemma MisnamedFinalizePaysNobody(c: Crypto, m: Modules, p: RecoveryPackage, start: u64, deadline: u64)
    requires |p.entries| <= 64
    ensures FinalizeAccepted(c, m, p, start, deadline, MisnamedFinalize(c, m, p, start, deadline))
    ensures CreatedCoins(MisnamedFinalize(c, m, p, start, deadline)) == []
  {
    var all, coins := MisnamedFinalize(c, m, p, start, deadline), ExpectedCoins(c, m, p);
    MisnamedCounts(c, m, p, start, deadline);
    U64AtomIs(start);
    U64AtomIs(deadline);
    forall i | 0 <= i < |coins| ensures CountsAs(Conditions(all, CREATE_COIN)[i], coins[i]) {
      U64AtomIs(coins[i].amount);
    }
    forall i: u64 | i < |p.entries|
      ensures Creates(Conditions(all, CREATE_COIN)[i], PaymentHash(c, m, p, i), p.entries[i].amount)
    {
      assert CountsAs(Conditions(all, CREATE_COIN)[i], coins[i]);
    }
    assert CountsAs(Conditions(all, CREATE_COIN)[|p.entries|], coins[|p.entries|]);
    MeantAreCounted(all, CREATE_COIN);
    LongAtomReadsShort(CREATE_COIN);
    NoneNamed(MisnamedCreates(coins));
  }
}
