/** Challenges: what an accepted challenge commits to, and what a chain of them can and cannot change. */
module Challenges {
  import opened ByteStrings
  import opened Protocol
  import opened Types
  import opened Packages
  import opened Preimages
  import opened Clvm
  import opened Closing
  import Merkle

  datatype ClosingCoinKind = Initial | Subsequent

  /** What a challenge is asked to do: replace a state, or state zero, by a later one. */
  datatype Challenge =
    | FromState(current: RecoveryPackage, latest: RecoveryPackage, kind: ClosingCoinKind, birth: u64, deadline: u64)
    | FromStateZero(latest: RecoveryPackage, birth: u64, deadline: u64)

  datatype Material = Material(
    coin: Bytes32, kind: ClosingCoinKind, currentSequence: u64, currentHash: Bytes32, latestSequence: u64,
    latestHash: Bytes32, birth: u64, deadline: u64, closingPuzzleHash: Bytes32, nextClosingPuzzleHash: Bytes32,
    amount: u64, assertsBirth: Option<u64>, signatureCount: nat, signatures: seq<Bytes96>)

  function KindOf(ch: Challenge): ClosingCoinKind {
    if ch.FromState? then ch.kind else Initial
  }

  function TermsOf(ch: Challenge): ChannelTerms {
    ch.latest.channelTerms
  }

  function CoinOf(ch: Challenge): Bytes32 {
    ch.latest.fundingCoinId
  }

  /** The deadline the current coin commits to: none yet, for an initial closing coin. */
  function CommittedDeadline(ch: Challenge): Bytes8 {
    if KindOf(ch) == Initial then Zeros(8) else U64(ch.deadline)
  }

  function CurrentHash(c: Crypto, ch: Challenge): Bytes32 {
    match ch
    case FromState(current, _, _, _, _) => CheckpointDigest(c, TermsOf(ch), current.officialState.checkpoint)
    case FromStateZero(_, _, _) => StateZeroDigest(c, TermsOf(ch), CoinOf(ch))
  }

  function CurrentSequence(ch: Challenge): u64 {
    if ch.FromState? then ch.current.officialState.checkpoint.stateSequence else 0
  }

  function LatestSequence(ch: Challenge): u64 {
    ch.latest.officialState.checkpoint.stateSequence
  }

  function LatestHash(c: Crypto, ch: Challenge): Bytes32 {
    CheckpointDigest(c, TermsOf(ch), ch.latest.officialState.checkpoint)
  }

  function CurrentPreimage(c: Crypto, ch: Challenge): Bytes {
    ClosingStatePreimage(TermsOf(ch).networkId, CoinOf(ch), TermsDigest(c, TermsOf(ch)), CommittedDeadline(ch),
                         CurrentHash(c, ch))
  }

  function NextPreimage(c: Crypto, ch: Challenge): Bytes {
    ClosingStatePreimage(TermsOf(ch).networkId, CoinOf(ch), TermsDigest(c, TermsOf(ch)), U64(ch.deadline),
                         LatestHash(c, ch))
  }

  function CurrentModule(m: Modules, ch: Challenge): Bytes32 {
    if KindOf(ch) == Initial then m.initialClosing else m.subsequentClosing
  }

  function CurrentPuzzleHash(c: Crypto, m: Modules, ch: Challenge): Bytes32 {
    OneArgPuzzleHash(c, CurrentModule(m, ch), c.sha256(CurrentPreimage(c, ch)))
  }

  function NextPuzzleHash(c: Crypto, m: Modules, ch: Challenge): Bytes32 {
    OneArgPuzzleHash(c, m.subsequentClosing, c.sha256(NextPreimage(c, ch)))
  }

  // ---------------------------------------------------------------- the checks

  function StateZeroArgs(c: Crypto, t: ChannelTerms): StateArgs {
    StateArgs(LedgerCheckpoint(Zeros(32), Zeros(32), 0, Zeros(32), Merkle.EmptyRoot(c), 0, 0, t.fundingAmount), [])
  }

  function CurrentArgs(c: Crypto, ch: Challenge): StateArgs {
    if ch.FromState? then StateOf(ch.current) else StateZeroArgs(c, TermsOf(ch))
  }

  function ChallengeSpend(c: Crypto, ch: Challenge): Spend {
    var commitment := c.sha256(CurrentPreimage(c, ch));
    if KindOf(ch) == Initial
    then InitialSpend(commitment, 1, ch.birth, ch.deadline, TermsOf(ch), CoinOf(ch), CurrentArgs(c, ch),
                      StateOf(ch.latest))
    else SubsequentSpend(commitment, 1, ch.deadline, TermsOf(ch), CoinOf(ch), CurrentArgs(c, ch),
                         StateOf(ch.latest))
  }

  function ChallengeRun(c: Crypto, vm: Vm, ch: Challenge): Result<seq<Condition>, Failed> {
    RunConditions(vm, ChallengeSpend(c, ch))
  }

  /** The packages and the sequence: checked before anything is run. */
  function CheckStates(c: Crypto, ch: Challenge): Outcome<ClosingError> {
    match ch
    case FromState(current, latest, _, _, _) =>
      if ValidatePackage(c, current).Fail? then Fail(Invalid(ValidatePackage(c, current).error))
      else if ValidatePackage(c, latest).Fail? then Fail(Invalid(ValidatePackage(c, latest).error))
      else if current.fundingCoinId != latest.fundingCoinId || current.channelTerms != latest.channelTerms
           || current.fundingAmount != latest.fundingAmount then
        Fail(Rejected("current and latest RecoveryPackages describe different channels"))
      else if LatestSequence(ch) <= CurrentSequence(ch) then
        Fail(Rejected("CHALLENGE requires a strictly higher latest state sequence"))
      else if ch.birth == 0 then Fail(Rejected("initial Closing Coin birth height must be positive"))
      else Pass
    case FromStateZero(latest, _, _) =>
      if ValidatePackage(c, latest).Fail? then Fail(Invalid(ValidatePackage(c, latest).error))
      else if LatestSequence(ch) == 0 || ch.birth == 0 then
        Fail(Rejected("State 0 CHALLENGE requires a positive latest sequence and birth height"))
      else Pass
  }

  function CheckDeadline(ch: Challenge): Outcome<ClosingError> {
    if ch.birth + TermsOf(ch).challengeBlocks >= 0x1_0000_0000_0000_0000 then
      Fail(Rejected("challenge deadline overflow"))
    else if ch.deadline != ch.birth + TermsOf(ch).challengeBlocks then
      Fail(Rejected("challenge deadline does not equal initial birth height plus challenge_blocks"))
    else Pass
  }

  function ExpectedSignatures(ch: Challenge): nat {
    if ch.FromState? then |ch.current.entries| + |ch.latest.entries| + 2 else |ch.latest.entries| + 1
  }

  function CheckBirth(ch: Challenge, all: seq<Condition>): Outcome<Failed> {
    if KindOf(ch) == Initial then RequireU64(all, ASSERT_MY_BIRTH_HEIGHT, ch.birth)
    else if Conditions(all, ASSERT_MY_BIRTH_HEIGHT) != [] then
      Fail("Subsequent Closing CHALLENGE unexpectedly asserted a birth height")
    else Pass
  }

  function CheckConditions(c: Crypto, m: Modules, ch: Challenge, all: seq<Condition>): Outcome<Failed> {
    RequireU64(all, ASSERT_BEFORE_HEIGHT_ABSOLUTE, ch.deadline)
    .Then(RequireU64(all, ASSERT_MY_AMOUNT, TermsOf(ch).fundingAmount))
    .Then(CheckBirth(ch, all))
    .Then(RequireSingleCreate(all, NextPuzzleHash(c, m, ch), TermsOf(ch).fundingAmount))
    .Then(if |Conditions(all, AGG_SIG_UNSAFE)| != ExpectedSignatures(ch) then
          Fail("Closing CHALLENGE emitted an unexpected signature condition count") else Pass)
  }

  function PackageSignatures(p: RecoveryPackage): seq<Bytes96> {
    [p.officialState.hubStateSignature] + p.userAuthorizationSignatures
  }

  function ProtocolSignatures(ch: Challenge): seq<Bytes96> {
    (if ch.FromState? then PackageSignatures(ch.current) else []) + PackageSignatures(ch.latest)
  }

  function MaterialOf(c: Crypto, m: Modules, ch: Challenge): Material {
    Material(CoinOf(ch), KindOf(ch), CurrentSequence(ch), CurrentHash(c, ch), LatestSequence(ch), LatestHash(c, ch),
             ch.birth, ch.deadline, CurrentPuzzleHash(c, m, ch), NextPuzzleHash(c, m, ch), TermsOf(ch).fundingAmount,
             if KindOf(ch) == Initial then Some(ch.birth) else None, ExpectedSignatures(ch), ProtocolSignatures(ch))
  }

  /** `challenge_spend_material` and `state_zero_challenge_spend_material`. */
  function SpendMaterial(c: Crypto, m: Modules, vm: Vm, ch: Challenge)
    : Result<Material, ClosingError>
  {
    var states := CheckStates(c, ch);
    :- states;
    :- CheckDeadline(ch);
    var run := ChallengeRun(c, vm, ch);
    if run.Failure? then Failure(Rejected(run.error)) else
    var checked := CheckConditions(c, m, ch, run.value);
    if checked.Fail? then Failure(Rejected(checked.error))
    else Success(MaterialOf(c, m, ch))
  }

  /** What acceptance means, for any CLVM: the facts the Rust checks force. */
  ghost predicate Accepted(c: Crypto, ch: Challenge) {
    && ValidPackage(c, ch.latest)
    && (ch.FromState? ==>
          && ValidPackage(c, ch.current)
          && ch.current.fundingCoinId == ch.latest.fundingCoinId && ch.current.channelTerms == ch.latest.channelTerms)
    && CurrentSequence(ch) < LatestSequence(ch)
    && ch.birth > 0 && ch.deadline == ch.birth + TermsOf(ch).challengeBlocks
  }

  lemma StatesChecked(c: Crypto, ch: Challenge)
    requires CheckStates(c, ch).Pass?
    ensures ValidatePackage(c, ch.latest).Pass? && ch.birth > 0 && CurrentSequence(ch) < LatestSequence(ch)
    ensures ch.FromState? ==>
              && ValidatePackage(c, ch.current).Pass?
              && ch.current.fundingCoinId == ch.latest.fundingCoinId
              && ch.current.channelTerms == ch.latest.channelTerms
  {
  }

  lemma MaterialChecked(c: Crypto, m: Modules, vm: Vm, ch: Challenge)
    requires SpendMaterial(c, m, vm, ch).Success?
    ensures CheckStates(c, ch).Pass? && CheckDeadline(ch).Pass?
    ensures ChallengeRun(c, vm, ch).Success?
    ensures CheckConditions(c, m, ch, ChallengeRun(c, vm, ch).value).Pass?
    ensures SpendMaterial(c, m, vm, ch).value == MaterialOf(c, m, ch)
  {
  }

  lemma ConditionsChecked(c: Crypto, m: Modules, ch: Challenge, all: seq<Condition>)
    requires CheckConditions(c, m, ch, all).Pass?
    ensures |Conditions(all, CREATE_COIN)| == 1
    ensures Creates(Conditions(all, CREATE_COIN)[0], NextPuzzleHash(c, m, ch), TermsOf(ch).fundingAmount)
    ensures RequireU64(all, ASSERT_BEFORE_HEIGHT_ABSOLUTE, ch.deadline).Pass?
    ensures RequireSingleCreate(all, NextPuzzleHash(c, m, ch), TermsOf(ch).fundingAmount).Pass?
    ensures RequireU64(all, ASSERT_MY_AMOUNT, TermsOf(ch).fundingAmount).Pass?
    ensures KindOf(ch) == Initial ==> RequireU64(all, ASSERT_MY_BIRTH_HEIGHT, ch.birth).Pass?
    ensures KindOf(ch) == Subsequent ==> Conditions(all, ASSERT_MY_BIRTH_HEIGHT) == []
    ensures |Conditions(all, AGG_SIG_UNSAFE)| == ExpectedSignatures(ch)
  {
  }

  lemma MaterialIsAccepted(c: Crypto, m: Modules, vm: Vm, ch: Challenge)
    requires SpendMaterial(c, m, vm, ch).Success?
    ensures Accepted(c, ch)
  {
    MaterialChecked(c, m, vm, ch);
    StatesChecked(c, ch);
    PackageAcceptedIffValid(c, ch.latest);
    if ch.FromState? {
      PackageAcceptedIffValid(c, ch.current);
    }
  }

  // ---------------------------------------------------------------- what is returned

  /** The spend replaces this state by this later one, of this channel, out of the coin that commits to the first. */
  ghost predicate Replaces(c: Crypto, ch: Challenge, spend: Spend, current: Bytes32) {
    var t, coin := ch.latest.channelTerms, ch.latest.fundingCoinId;
    && current == (if ch.FromState? then CheckpointDigest(c, t, ch.current.officialState.checkpoint)
                   else StateZeroDigest(c, t, coin))
    && (spend.InitialSpend? || spend.SubsequentSpend?)
    && (spend.SubsequentSpend? <==> ch.FromState? && ch.kind == Subsequent)
    && spend.mode == 1 && spend.deadline == ch.deadline && spend.terms == t && spend.coin == coin
    && (spend.InitialSpend? ==> spend.birth == ch.birth)
    && spend.commitment ==
       c.sha256(ClosingStatePreimage(t.networkId, coin, TermsDigest(c, t),
                                     if spend.InitialSpend? then Zeros(8) else U64(ch.deadline), current))
    && spend.next == StateArgs(ch.latest.officialState.checkpoint, ch.latest.entries)
    && spend.current ==
       (if ch.FromState? then StateArgs(ch.current.officialState.checkpoint, ch.current.entries)
        else
          var root := c.sha256(Ascii("XHUB_LEDGER_EMPTY_V3_6"));
          StateArgs(LedgerCheckpoint(Zeros(32), Zeros(32), 0, Zeros(32), root, 0, 0, t.fundingAmount), []))
  }

  /** What a returned material says of the spend that was run: which coin it spends, and what it replaces there. */
  ghost predicate Describes(c: Crypto, m: Modules, v: Material, spend: Spend) {
    && (spend.InitialSpend? || spend.SubsequentSpend?)
    && v.kind == (if spend.InitialSpend? then Initial else Subsequent)
    && v.coin == spend.coin && v.closingPuzzleHash == RevealedHash(c, m, spend)
    && v.amount == spend.terms.fundingAmount && v.deadline == spend.deadline
    && v.deadline == v.birth + spend.terms.challengeBlocks
    && v.currentSequence == spend.current.checkpoint.stateSequence < v.latestSequence
    && v.latestSequence == spend.next.checkpoint.stateSequence
    && v.latestHash == CheckpointDigest(c, spend.terms, spend.next.checkpoint)
  }

  /** And of its conditions: the one coin it creates, its timelocks, and a signature for each that is checked. */
  ghost predicate Reports(v: Material, all: seq<Condition>) {
    && |Conditions(all, CREATE_COIN)| == 1
    && Creates(Conditions(all, CREATE_COIN)[0], v.nextClosingPuzzleHash, v.amount)
    && RequireU64(all, ASSERT_BEFORE_HEIGHT_ABSOLUTE, v.deadline).Pass?
    && RequireU64(all, ASSERT_MY_AMOUNT, v.amount).Pass?
    && v.assertsBirth == (if v.kind == Initial then Some(v.birth) else None)
    && (if v.assertsBirth.Some? then RequireU64(all, ASSERT_MY_BIRTH_HEIGHT, v.assertsBirth.value).Pass?
        else Conditions(all, ASSERT_MY_BIRTH_HEIGHT) == [])
    && |Conditions(all, AGG_SIG_UNSAFE)| == v.signatureCount == |v.signatures|
  }

  /** The signatures returned: of both states and of every entry of both, in order. */
  ghost predicate SignaturesOf(ch: Challenge, signatures: seq<Bytes96>) {
    var later := [ch.latest.officialState.hubStateSignature] + ch.latest.userAuthorizationSignatures;
    signatures ==
      if ch.FromStateZero? then later
      else [ch.current.officialState.hubStateSignature] + ch.current.userAuthorizationSignatures + later
  }

  lemma MaterialDescribes(c: Crypto, m: Modules, ch: Challenge, spend: Spend)
    requires Accepted(c, ch) && Replaces(c, ch, spend, CurrentHash(c, ch))
    ensures Describes(c, m, MaterialOf(c, m, ch), spend)
  {
  }

  lemma MaterialReports(c: Crypto, m: Modules, ch: Challenge, all: seq<Condition>)
    requires Accepted(c, ch) && CheckConditions(c, m, ch, all).Pass?
    ensures Reports(MaterialOf(c, m, ch), all) && SignaturesOf(ch, MaterialOf(c, m, ch).signatures)
  {
    ConditionsChecked(c, m, ch, all);
  }


  /** For any CLVM, the material of an accepted challenge describes the spend that was run and reports its conditions:
      it names the coin spent, the state there and the state put in its place, the one coin created with the whole
      amount, the timelocks, and as many signatures as are checked. */
  lemma MaterialIsTrue(c: Crypto, m: Modules, vm: Vm, ch: Challenge) returns (spend: Spend)
    requires SpendMaterial(c, m, vm, ch).Success?
    ensures var v := SpendMaterial(c, m, vm, ch).value;
            && Replaces(c, ch, spend, v.currentHash) && Describes(c, m, v, spend)
            && RunConditions(vm, spend).Success? && Reports(v, RunConditions(vm, spend).value)
            && SignaturesOf(ch, v.signatures)
  {
    MaterialChecked(c, m, vm, ch);
    MaterialIsAccepted(c, m, vm, ch);
    spend := ChallengeSpend(c, ch);
    MaterialDescribes(c, m, ch, spend);
    MaterialReports(c, m, ch, RunConditions(vm, spend).value);
  }

  lemma ReportedIsChecked(c: Crypto, m: Modules, ch: Challenge, all: seq<Condition>)
    requires Reports(MaterialOf(c, m, ch), all)
    ensures CheckConditions(c, m, ch, all).Pass?
  {
  }

  lemma AcceptedIsChecked(c: Crypto, ch: Challenge)
    requires Accepted(c, ch)
    ensures CheckStates(c, ch).Pass? && CheckDeadline(ch).Pass?
  {
    PackageAcceptedIffValid(c, ch.latest);
    if ch.FromState? {
      PackageAcceptedIffValid(c, ch.current);
      OneFunding(c, ch.current, ch.latest);
    }
    StatesPass(c, ch);
  }

  lemma OneFunding(c: Crypto, p: RecoveryPackage, q: RecoveryPackage)
    requires ValidPackage(c, p) && ValidPackage(c, q) && p.channelTerms == q.channelTerms
    ensures p.fundingAmount == q.fundingAmount
  {
  }

  lemma StatesPass(c: Crypto, ch: Challenge)
    requires ValidatePackage(c, ch.latest).Pass? && CurrentSequence(ch) < LatestSequence(ch) && ch.birth > 0
    requires ch.FromState? ==>
               && ValidatePackage(c, ch.current).Pass? && ch.current.fundingCoinId == ch.latest.fundingCoinId
               && ch.current.channelTerms == ch.latest.channelTerms
               && ch.current.fundingAmount == ch.latest.fundingAmount
    ensures CheckStates(c, ch).Pass?
  {
  }

  /** A challenge is accepted exactly when its states and heights are, and the spend, run by the CLVM, has the
      conditions its material reports. */
  lemma ChallengeAcceptedIff(c: Crypto, m: Modules, vm: Vm, ch: Challenge)
    ensures SpendMaterial(c, m, vm, ch).Success? <==>
            && Accepted(c, ch)
            && RunConditions(vm, ChallengeSpend(c, ch)).Success?
            && Reports(MaterialOf(c, m, ch), RunConditions(vm, ChallengeSpend(c, ch)).value)
  {
    var run := RunConditions(vm, ChallengeSpend(c, ch));
    if SpendMaterial(c, m, vm, ch).Success? {
      MaterialChecked(c, m, vm, ch);
      MaterialIsAccepted(c, m, vm, ch);
      MaterialReports(c, m, ch, run.value);
    }
    if Accepted(c, ch) {
      AcceptedIsChecked(c, ch);
      if run.Success? && Reports(MaterialOf(c, m, ch), run.value) {
        ReportedIsChecked(c, m, ch, run.value);
      }
    }
  }

  /** The coin an initial challenge spends is the one a settlement of the same package reports, and would finalize. */
  lemma ChallengesTheSettledCoin(c: Crypto, m: Modules, vm: Vm, ch: Challenge, start: u64,
                                 deadline: u64, outputs: seq<ClosingOutput>, forwards: seq<MerchantForward>)
    requires SpendMaterial(c, m, vm, ch).Success? && ch.FromState? && ch.kind == Initial
    ensures SpendMaterial(c, m, vm, ch).value.closingPuzzleHash
            == Report(c, m, ch.current, start, deadline, outputs, forwards).initialPuzzleHash
  {
    MaterialChecked(c, m, vm, ch);
    MaterialIsAccepted(c, m, vm, ch);
    OneInitialCoin(c, m, ch);
  }

  lemma OneInitialCoin(c: Crypto, m: Modules, ch: Challenge)
    requires Accepted(c, ch) && ch.FromState? && ch.kind == Initial
    ensures MaterialOf(c, m, ch).closingPuzzleHash == InitialPuzzleHash(c, m, ch.current)
  {
  }

  /** What the spend of a challenge does: one coin, worth the whole channel, under the puzzle hash returned as next, out
      of a coin worth as much, only before the deadline, and for an initial coin only at its birth height. */
  ghost predicate ChallengeDoes(v: Material, all: seq<Condition>) {
    && CreatedCoins(all) == [Coin(v.nextClosingPuzzleHash, v.amount)]
    && Asserts(all, ASSERT_BEFORE_HEIGHT_ABSOLUTE, v.deadline)
    && Asserts(all, ASSERT_MY_AMOUNT, v.amount)
    && (if v.kind == Initial then Asserts(all, ASSERT_MY_BIRTH_HEIGHT, v.birth)
        else Meant(all, ASSERT_MY_BIRTH_HEIGHT) == [])
  }

  /** Every condition counted is named by its opcode's one byte and has an integer of 64 bits. */
  ghost predicate CountedExactly(v: Material, all: seq<Condition>) {
    && |Conditions(all, CREATE_COIN)| == |Conditions(all, ASSERT_BEFORE_HEIGHT_ABSOLUTE)| == 1
    && |Conditions(all, ASSERT_MY_AMOUNT)| == 1
    && (v.kind == Initial ==> |Conditions(all, ASSERT_MY_BIRTH_HEIGHT)| == 1)
    && ExactCreate(Conditions(all, CREATE_COIN)[0])
    && ExactAssertion(Conditions(all, ASSERT_BEFORE_HEIGHT_ABSOLUTE)[0])
    && ExactAssertion(Conditions(all, ASSERT_MY_AMOUNT)[0])
    && (v.kind == Initial ==> ExactAssertion(Conditions(all, ASSERT_MY_BIRTH_HEIGHT)[0]))
  }

  lemma ReportedHoldsIff(v: Material, all: seq<Condition>)
    requires Reports(v, all)
    ensures ChallengeDoes(v, all) <==> CountedExactly(v, all)
  {
    RequiredIsCreatedIff(all, v.nextClosingPuzzleHash, v.amount);
    RequiredIsAssertedIff(all, ASSERT_BEFORE_HEIGHT_ABSOLUTE, v.deadline);
    RequiredIsAssertedIff(all, ASSERT_MY_AMOUNT, v.amount);
    if v.kind == Initial {
      RequiredIsAssertedIff(all, ASSERT_MY_BIRTH_HEIGHT, v.birth);
    } else {
      MeantAreCounted(all, ASSERT_MY_BIRTH_HEIGHT);
    }
  }

  /** For any output of the CLVM, an accepted challenge creates exactly one coin, worth the whole channel, under the
      puzzle hash it returns as next, and is only valid before the deadline, exactly when the opcodes of the
      conditions counted are one byte and their integers fit 64 bits. */
  lemma ChallengeKeepsTheMoneyIff(c: Crypto, m: Modules, vm: Vm, ch: Challenge)
    returns (spend: Spend)
    requires SpendMaterial(c, m, vm, ch).Success?
    ensures var v := SpendMaterial(c, m, vm, ch).value;
            && Replaces(c, ch, spend, v.currentHash) && RunConditions(vm, spend).Success?
            && v.amount == ch.latest.channelTerms.fundingAmount
            && (ChallengeDoes(v, RunConditions(vm, spend).value) <==>
                CountedExactly(v, RunConditions(vm, spend).value))
  {
    spend := MaterialIsTrue(c, m, vm, ch);
    ReportedHoldsIff(SpendMaterial(c, m, vm, ch).value, RunConditions(vm, spend).value);
  }

  // ---------------------------------------------------------------- linked challenges

  /** An accepted challenge and the material returned for it. */
  datatype Made = Made(challenge: Challenge, material: Material)

  ghost predicate Makes(c: Crypto, m: Modules, vm: Vm, made: Made) {
    SpendMaterial(c, m, vm, made.challenge) == Success(made.material)
  }

  /** The next challenge spends the coin the one before creates. */
  predicate Follows(a: Material, b: Material) {
    b.closingPuzzleHash == a.nextClosingPuzzleHash
  }

  /** Currying does not send these two commitments to one puzzle hash. */
  ghost predicate CurriesApart(c: Crypto, m: Modules, a: Challenge, b: Challenge) {
    c.curryHash(CurrentModule(m, b), [c.sha256(CurrentPreimage(c, b))])
        == c.curryHash(m.subsequentClosing, [c.sha256(NextPreimage(c, a))])
    ==> CurrentModule(m, b) == m.subsequentClosing && c.sha256(CurrentPreimage(c, b)) == c.sha256(NextPreimage(c, a))
  }

  ghost function StateInputs(c: Crypto, a: Challenge, b: Challenge): set<Bytes> {
    {CheckpointPreimage(TermsOf(a), a.latest.officialState.checkpoint), TermsPreimage(TermsOf(a)),
      TermsPreimage(TermsOf(b))} +
    (if b.FromState? then {CheckpointPreimage(TermsOf(b), b.current.officialState.checkpoint)} else {})
  }

  /** Every string hashed to link two challenges. */
  ghost function LinkInputs(c: Crypto, a: Challenge, b: Challenge): set<Bytes> {
    {CurrentPreimage(c, b), NextPreimage(c, a)} + StateInputs(c, a, b)
  }

  ghost predicate NoLinkCollision(c: Crypto, m: Modules, a: Challenge, b: Challenge) {
    CurriesApart(c, m, a, b) && CollisionFree(c.sha256, LinkInputs(c, a, b))
  }

  lemma ClosingStatePreimageInjective(n1: Bytes32, coin1: Bytes32, t1: Bytes32, d1: Bytes8, s1: Bytes32,
                                      n2: Bytes32, coin2: Bytes32, t2: Bytes32, d2: Bytes8, s2: Bytes32)
    requires ClosingStatePreimage(n1, coin1, t1, d1, s1) == ClosingStatePreimage(n2, coin2, t2, d2, s2)
    ensures n1 == n2 && coin1 == coin2 && t1 == t2 && d1 == d2 && s1 == s2
  {
    var v := U16(PROTOCOL_VERSION);
    Split(CLOSING_STATE_DOMAIN, v + (n1 + (coin1 + (t1 + (d1 + s1)))), CLOSING_STATE_DOMAIN,
          v + (n2 + (coin2 + (t2 + (d2 + s2)))));
    Split(v, n1 + (coin1 + (t1 + (d1 + s1))), v, n2 + (coin2 + (t2 + (d2 + s2))));
    Split(n1, coin1 + (t1 + (d1 + s1)), n2, coin2 + (t2 + (d2 + s2)));
    Split(coin1, t1 + (d1 + s1), coin2, t2 + (d2 + s2));
    Split(t1, d1 + s1, t2, d2 + s2);
    Split(d1, s1, d2, s2);
  }

  lemma {:induction false} ZerosAreZero(n: nat)
    ensures FromBE(Zeros(n)) == 0
  {
    if n > 0 {
      assert Zeros(n)[..n - 1] == Zeros(n - 1);
      ZerosAreZero(n - 1);
    }
  }

  lemma PositiveIsNotZeros(v: u64)
    requires v > 0
    ensures U64(v) != Zeros(8)
  {
    Widths();
    FromToBE(v, 8);
    ZerosAreZero(8);
  }

  /** The commitments agree field by field. */
  lemma CommitmentsAgree(c: Crypto, m: Modules, a: Challenge, b: Challenge)
    requires CurrentPuzzleHash(c, m, b) == NextPuzzleHash(c, m, a) && NoLinkCollision(c, m, a, b)
    ensures CoinOf(a) == CoinOf(b) && TermsDigest(c, TermsOf(a)) == TermsDigest(c, TermsOf(b))
    ensures CommittedDeadline(b) == U64(a.deadline) && CurrentHash(c, b) == LatestHash(c, a)
  {
    NoCollision(c.sha256, LinkInputs(c, a, b), CurrentPreimage(c, b), NextPreimage(c, a));
    ClosingStatePreimageInjective(
      TermsOf(b).networkId, CoinOf(b), TermsDigest(c, TermsOf(b)), CommittedDeadline(b), CurrentHash(c, b),
      TermsOf(a).networkId, CoinOf(a), TermsDigest(c, TermsOf(a)), U64(a.deadline), LatestHash(c, a));
  }

  /** What one link keeps. */
  ghost predicate Linked(a: Challenge, b: Challenge) {
    && b.FromState? && b.kind == Subsequent
    && b.deadline == a.deadline && b.birth == a.birth
    && TermsOf(b) == TermsOf(a) && CoinOf(b) == CoinOf(a)
    && b.current.officialState.checkpoint == a.latest.officialState.checkpoint
    && LatestSequence(a) < LatestSequence(b)
  }

  lemma AcceptedTerms(c: Crypto, ch: Challenge)
    requires Accepted(c, ch)
    ensures ValidTerms(c, TermsOf(ch)) && ch.deadline > 0 && ch.birth > 0
            && ch.deadline == ch.birth + TermsOf(ch).challengeBlocks
    ensures CurrentSequence(ch) < LatestSequence(ch)
  {
  }

  lemma SameTerms(c: Crypto, inputs: set<Bytes>, t: ChannelTerms, u: ChannelTerms)
    requires CollisionFree(c.sha256, inputs) && TermsPreimage(t) in inputs && TermsPreimage(u) in inputs
    requires ValidTerms(c, t) && ValidTerms(c, u) && TermsDigest(c, t) == TermsDigest(c, u)
    ensures t == u
  {
    NoCollision(c.sha256, inputs, TermsPreimage(t), TermsPreimage(u));
    TermsPreimageInjective(c, t, u);
  }

  lemma SameCheckpoint(c: Crypto, inputs: set<Bytes>, t: ChannelTerms, k: LedgerCheckpoint, u: ChannelTerms,
                       l: LedgerCheckpoint)
    requires CollisionFree(c.sha256, inputs) && CheckpointPreimage(t, k) in inputs && CheckpointPreimage(u, l) in inputs
    requires CheckpointDigest(c, t, k) == CheckpointDigest(c, u, l)
    ensures k == l
  {
    NoCollision(c.sha256, inputs, CheckpointPreimage(t, k), CheckpointPreimage(u, l));
    CheckpointPreimageInjective(t, k, u, l);
  }

  lemma AcceptedLink(c: Crypto, m: Modules, a: Challenge, b: Challenge)
    requires Accepted(c, a) && Accepted(c, b) && NoLinkCollision(c, m, a, b)
    requires CurrentPuzzleHash(c, m, b) == NextPuzzleHash(c, m, a)
    ensures Linked(a, b)
  {
    AcceptedTerms(c, a);
    AcceptedTerms(c, b);
    CommitmentsAgree(c, m, a, b);
    PositiveIsNotZeros(a.deadline);
    U64Injective(a.deadline, b.deadline) by {
      assert KindOf(b) == Subsequent;
    }
    SameTerms(c, LinkInputs(c, a, b), TermsOf(a), TermsOf(b));
    SameCheckpoint(c, LinkInputs(c, a, b), TermsOf(b), b.current.officialState.checkpoint, TermsOf(a),
                   a.latest.officialState.checkpoint);
  }

  lemma MaterialHashes(c: Crypto, m: Modules, ch: Challenge)
    ensures MaterialOf(c, m, ch).closingPuzzleHash == CurrentPuzzleHash(c, m, ch)
    ensures MaterialOf(c, m, ch).nextClosingPuzzleHash == NextPuzzleHash(c, m, ch)
  {
  }

  lemma MadeMaterial(c: Crypto, m: Modules, vm: Vm, made: Made)
    requires Makes(c, m, vm, made)
    ensures Accepted(c, made.challenge) && made.material == MaterialOf(c, m, made.challenge)
  {
    MaterialChecked(c, m, vm, made.challenge);
    MaterialIsAccepted(c, m, vm, made.challenge);
  }

  /** What one link keeps of the materials. */
  predicate LinkedMaterials(a: Material, b: Material) {
    && b.coin == a.coin && b.deadline == a.deadline && b.birth == a.birth && b.amount == a.amount
    && b.kind == Subsequent && b.currentHash == a.latestHash && b.currentSequence == a.latestSequence
  }

  lemma LinkKeepsMaterial(c: Crypto, m: Modules, a: Challenge, b: Challenge)
    requires Linked(a, b)
    ensures LinkedMaterials(MaterialOf(c, m, a), MaterialOf(c, m, b))
  {
  }

  lemma MaterialKeeps(c: Crypto, m: Modules, first: Challenge, later: Challenge, steps: nat)
    requires KeptFrom(first, later, steps)
    ensures KeptMaterial(first, MaterialOf(c, m, later), steps)
  {
  }

  /** Two challenges, the second returned as spending the coin the first was returned as creating: same channel, same
      deadline, and the second starts from exactly the state the first put there; or two hashed strings collide. */
  lemma OneLink(c: Crypto, m: Modules, vm: Vm, a: Made, b: Made)
    requires Makes(c, m, vm, a) && Makes(c, m, vm, b)
    requires Follows(a.material, b.material) && NoLinkCollision(c, m, a.challenge, b.challenge)
    ensures Linked(a.challenge, b.challenge) && LinkedMaterials(a.material, b.material)
  {
    MadeMaterial(c, m, vm, a);
    MadeMaterial(c, m, vm, b);
    MaterialHashes(c, m, a.challenge);
    MaterialHashes(c, m, b.challenge);
    AcceptedLink(c, m, a.challenge, b.challenge);
    LinkKeepsMaterial(c, m, a.challenge, b.challenge);
  }

  // ---------------------------------------------------------------- chains of challenges

  /** Challenges, each returned as spending the coin the one before was returned as creating. */
  ghost predicate ChallengeChain(c: Crypto, m: Modules, vm: Vm, chain: seq<Made>) {
    && (forall i :: 0 <= i < |chain| ==> Makes(c, m, vm, chain[i]))
    && (forall i, j :: 0 <= i && j == i + 1 && j < |chain| ==>
          && Follows(chain[i].material, chain[j].material)
          && NoLinkCollision(c, m, chain[i].challenge, chain[j].challenge))
  }

  /** What never changes along a chain, and what only rises. */
  ghost predicate KeptFrom(first: Challenge, later: Challenge, steps: nat) {
    && later.deadline == first.birth + TermsOf(first).challengeBlocks
    && later.birth == first.birth
    && TermsOf(later) == TermsOf(first) && CoinOf(later) == CoinOf(first)
    && LatestSequence(later) >= LatestSequence(first) + steps
    && (steps > 0 ==> KindOf(later) == Subsequent)
  }

  /** The same, of the material returned. */
  predicate KeptMaterial(first: Challenge, v: Material, steps: nat) {
    && v.coin == CoinOf(first) && v.amount == TermsOf(first).fundingAmount && v.birth == first.birth
    && v.deadline == first.birth + TermsOf(first).challengeBlocks
    && v.latestSequence >= LatestSequence(first) + steps
  }

  lemma {:induction false} LinkedChainKeeps(chain: seq<Made>, i: nat)
    requires i < |chain|
    requires chain[0].challenge.deadline
             == chain[0].challenge.birth + TermsOf(chain[0].challenge).challengeBlocks
    requires forall j, k :: 0 <= j && k == j + 1 && k < |chain| ==> Linked(chain[j].challenge, chain[k].challenge)
    ensures KeptFrom(chain[0].challenge, chain[i].challenge, i)
  {
    if i > 0 {
      LinkedChainKeeps(chain, i - 1);
      assert Linked(chain[i - 1].challenge, chain[i].challenge);
    }
  }

  /** In any chain of accepted challenges the deadline stays the first birth plus the challenge blocks, the channel and
      with it the amount stay the same, and the sequence strictly rises. */
  lemma ChainKeeps(c: Crypto, m: Modules, vm: Vm, chain: seq<Made>, i: nat)
    requires ChallengeChain(c, m, vm, chain) && i < |chain|
    ensures KeptFrom(chain[0].challenge, chain[i].challenge, i)
    ensures KeptMaterial(chain[0].challenge, chain[i].material, i)
  {
    assert Makes(c, m, vm, chain[0]);
    MadeMaterial(c, m, vm, chain[0]);
    AcceptedTerms(c, chain[0].challenge);
    forall j, k | 0 <= j && k == j + 1 && k < |chain| ensures Linked(chain[j].challenge, chain[k].challenge) {
      assert Makes(c, m, vm, chain[j]) && Makes(c, m, vm, chain[k]);
      OneLink(c, m, vm, chain[j], chain[k]);
    }
    LinkedChainKeeps(chain, i);
    MadeMaterial(c, m, vm, chain[i]);
    MaterialKeeps(c, m, chain[0].challenge, chain[i].challenge, i);
  }

  /** When every state comes from a store that never goes past sequence 64, a chain has at most 64 challenges. */
  lemma ChainIsShort(c: Crypto, m: Modules, vm: Vm, chain: seq<Made>)
    requires ChallengeChain(c, m, vm, chain)
    requires forall i :: 0 <= i < |chain| ==> LatestSequence(chain[i].challenge) <= 64
    ensures |chain| <= 64
  {
    if |chain| > 0 {
      assert Makes(c, m, vm, chain[0]);
      MadeMaterial(c, m, vm, chain[0]);
      AcceptedTerms(c, chain[0].challenge);
      ChainKeeps(c, m, vm, chain, |chain| - 1);
    }
  }
}
