/** Outputs of the CLVM that pass every check and do something else: one for each kind of spend whose checks are exact
    only for opcodes of one byte and integers of 64 bits. */
module Misreadings {
  import opened ByteStrings
  import opened Protocol
  import opened Types
  import opened Clvm
  import opened Closing
  import opened Challenges

  const TWO_64: nat := 0x1_0000_0000_0000_0000

  function Creating(puzzleHash: Bytes32, amount: Bytes): Condition {
    Condition(OpcodeAtom(CREATE_COIN), [puzzleHash, amount])
  }

  function Signatures(n: nat): (signatures: seq<Condition>)
    ensures |signatures| == n
    ensures forall i :: 0 <= i < n ==> signatures[i] == Condition(OpcodeAtom(AGG_SIG_UNSAFE), [])
  {
    seq(n, _ => Condition(OpcodeAtom(AGG_SIG_UNSAFE), []))
  }

  lemma OpcodesRead()
    ensures AtomU64(OpcodeAtom(AGG_SIG_UNSAFE)) == AGG_SIG_UNSAFE && AtomU64(OpcodeAtom(CREATE_COIN)) == CREATE_COIN
    ensures AtomU64(OpcodeAtom(ASSERT_MY_COIN_ID)) == ASSERT_MY_COIN_ID
    ensures AtomU64(OpcodeAtom(ASSERT_MY_AMOUNT)) == ASSERT_MY_AMOUNT
    ensures AtomU64(OpcodeAtom(ASSERT_MY_BIRTH_HEIGHT)) == ASSERT_MY_BIRTH_HEIGHT
    ensures AtomU64(OpcodeAtom(ASSERT_HEIGHT_RELATIVE)) == ASSERT_HEIGHT_RELATIVE
    ensures AtomU64(OpcodeAtom(ASSERT_BEFORE_HEIGHT_ABSOLUTE)) == ASSERT_BEFORE_HEIGHT_ABSOLUTE
  {
    OpcodeAtomIs(AGG_SIG_UNSAFE);
    OpcodeAtomIs(CREATE_COIN);
    OpcodeAtomIs(ASSERT_MY_COIN_ID);
    OpcodeAtomIs(ASSERT_MY_AMOUNT);
    OpcodeAtomIs(ASSERT_MY_BIRTH_HEIGHT);
    OpcodeAtomIs(ASSERT_HEIGHT_RELATIVE);
    OpcodeAtomIs(ASSERT_BEFORE_HEIGHT_ABSOLUTE);
  }

  /** Named conditions of different opcodes, and then signatures: each is the one counted for its opcode. */
  lemma OneOfEach(front: seq<Condition>, n: nat, i: nat, opcode: u64)
    requires i < |front| && front[i].Opcode() == opcode != AGG_SIG_UNSAFE
    requires forall j :: 0 <= j < |front| && j != i ==> front[j].Opcode() != opcode
    ensures Conditions(front + Signatures(n), opcode) == [front[i]]
  {
    OpcodesRead();
    OneOfItsOpcode(front + Signatures(n), i, opcode);
  }

  lemma SignaturesCounted(front: seq<Condition>, n: nat)
    requires forall i :: 0 <= i < |front| ==> front[i].Opcode() != AGG_SIG_UNSAFE
    ensures |Conditions(front + Signatures(n), AGG_SIG_UNSAFE)| == n
  {
    OpcodesRead();
    ConditionsOfBoth(front, Signatures(n), AGG_SIG_UNSAFE);
    ConditionsOfNone(front, AGG_SIG_UNSAFE);
    ConditionsOfOneOpcode(Signatures(n), AGG_SIG_UNSAFE, AGG_SIG_UNSAFE);
  }

  /** Counted alone for CREATE_COIN and named by its byte, a condition creates its coin. */
  lemma CreatesOne(all: seq<Condition>, create: Condition)
    requires Conditions(all, CREATE_COIN) == [create] && Named(create)
    ensures CreatedCoins(all) == [CreatedCoin(create)]
  {
    MeantAreCounted(all, CREATE_COIN);
    AllNamedIff([create]);
  }

  // ---------------------------------------------------------------- a forward that pays too much

  function LongForward(e: LedgerEntry): seq<Condition> {
    [Asserting(ASSERT_MY_AMOUNT, U64(e.amount)), Creating(e.merchantPuzzleHash, LongAtom(e.amount))]
  }

  /** For every entry, an accepted forward whose one coin is worth 2^64 more than the payment. */
  lemma LongForwardOverpays(e: LedgerEntry)
    ensures ForwardAccepted(e, Success(LongForward(e)))
    ensures CreatedCoins(LongForward(e)) == [Coin(e.merchantPuzzleHash, TWO_64 + e.amount)]
  {
    var all := LongForward(e);
    OpcodesRead();
    U64AtomIs(e.amount);
    LongAtomReadsShort(e.amount);
    OneOfItsOpcode(all, 0, ASSERT_MY_AMOUNT);
    OneOfItsOpcode(all, 1, CREATE_COIN);
    CreatesOne(all, all[1]);
  }

  // ---------------------------------------------------------------- a start of closing that does not wait

  function LongWaitFront(delay: u64, coin: Bytes32, amount: u64, puzzleHash: Bytes32): seq<Condition> {
    [Asserting(ASSERT_HEIGHT_RELATIVE, LongAtom(delay)), Asserting(ASSERT_MY_COIN_ID, coin),
     Asserting(ASSERT_MY_AMOUNT, U64(amount)), Creating(puzzleHash, U64(amount))]
  }

  lemma LongWaitPasses(delay: u64, coin: Bytes32, amount: u64, puzzleHash: Bytes32, n: nat)
    ensures var all := LongWaitFront(delay, coin, amount, puzzleHash) + Signatures(n);
            && RequireU64(all, ASSERT_HEIGHT_RELATIVE, delay).Pass?
            && RequireBytes(all, ASSERT_MY_COIN_ID, coin).Pass?
            && RequireU64(all, ASSERT_MY_AMOUNT, amount).Pass?
            && |Conditions(all, AGG_SIG_UNSAFE)| == n
            && RequireSingleCreate(all, puzzleHash, amount).Pass?
            && Asserts(all, ASSERT_HEIGHT_RELATIVE, TWO_64 + delay)
  {
    var front := LongWaitFront(delay, coin, amount, puzzleHash);
    OpcodesRead();
    U64AtomIs(amount);
    LongAtomReadsShort(delay);
    OneOfEach(front, n, 0, ASSERT_HEIGHT_RELATIVE);
    OneOfEach(front, n, 1, ASSERT_MY_COIN_ID);
    OneOfEach(front, n, 2, ASSERT_MY_AMOUNT);
    OneOfEach(front, n, 3, CREATE_COIN);
    SignaturesCounted(front, n);
    MeantAreCounted(front + Signatures(n), ASSERT_HEIGHT_RELATIVE);
    AllNamedIff([front[0]]);
  }

  function LongWait(c: Crypto, m: Modules, p: RecoveryPackage): seq<Condition> {
    LongWaitFront(p.channelTerms.closeDelayBlocks, p.fundingCoinId, p.channelTerms.fundingAmount,
                  InitialPuzzleHash(c, m, p))
    + Signatures(|p.entries| + 1)
  }

  /** For every package, an accepted start of closing that waits 2^64 blocks longer than the close delay. */
  lemma LongWaitAccepted(c: Crypto, m: Modules, p: RecoveryPackage)
    ensures FundingAccepted(c, m, p, LongWait(c, m, p))
    ensures Asserts(LongWait(c, m, p), ASSERT_HEIGHT_RELATIVE, TWO_64 + p.channelTerms.closeDelayBlocks)
  {
    LongWaitPasses(p.channelTerms.closeDelayBlocks, p.fundingCoinId, p.channelTerms.fundingAmount,
                   InitialPuzzleHash(c, m, p), |p.entries| + 1);
  }

  // ---------------------------------------------------------------- a challenge past its deadline

  function LateFront(deadline: u64, amount: u64, puzzleHash: Bytes32, birth: Option<u64>): seq<Condition> {
    [Asserting(ASSERT_BEFORE_HEIGHT_ABSOLUTE, LongAtom(deadline)), Asserting(ASSERT_MY_AMOUNT, U64(amount)),
     Creating(puzzleHash, U64(amount))]
    + if birth.Some? then [Asserting(ASSERT_MY_BIRTH_HEIGHT, U64(birth.value))] else []
  }

  lemma LateBirthPasses(deadline: u64, amount: u64, puzzleHash: Bytes32, birth: Option<u64>, n: nat)
    ensures var all := LateFront(deadline, amount, puzzleHash, birth) + Signatures(n);
            if birth.Some? then RequireU64(all, ASSERT_MY_BIRTH_HEIGHT, birth.value).Pass?
            else Conditions(all, ASSERT_MY_BIRTH_HEIGHT) == []
  {
    var front := LateFront(deadline, amount, puzzleHash, birth);
    OpcodesRead();
    if birth.Some? {
      U64AtomIs(birth.value);
      OneOfEach(front, n, 3, ASSERT_MY_BIRTH_HEIGHT);
    } else {
      ConditionsOfNone(front + Signatures(n), ASSERT_MY_BIRTH_HEIGHT);
    }
  }

  lemma LatePasses(deadline: u64, amount: u64, puzzleHash: Bytes32, birth: Option<u64>, n: nat)
    ensures var all := LateFront(deadline, amount, puzzleHash, birth) + Signatures(n);
            && RequireU64(all, ASSERT_BEFORE_HEIGHT_ABSOLUTE, deadline).Pass?
            && RequireU64(all, ASSERT_MY_AMOUNT, amount).Pass?
            && RequireSingleCreate(all, puzzleHash, amount).Pass?
            && |Conditions(all, AGG_SIG_UNSAFE)| == n
            && Asserts(all, ASSERT_BEFORE_HEIGHT_ABSOLUTE, TWO_64 + deadline)
  {
    var front := LateFront(deadline, amount, puzzleHash, birth);
    OpcodesRead();
    U64AtomIs(amount);
    LongAtomReadsShort(deadline);
    OneOfEach(front, n, 0, ASSERT_BEFORE_HEIGHT_ABSOLUTE);
    OneOfEach(front, n, 1, ASSERT_MY_AMOUNT);
    OneOfEach(front, n, 2, CREATE_COIN);
    SignaturesCounted(front, n);
    MeantAreCounted(front + Signatures(n), ASSERT_BEFORE_HEIGHT_ABSOLUTE);
    AllNamedIff([front[0]]);
  }

  function LateChallenge(c: Crypto, m: Modules, ch: Challenge): seq<Condition> {
    LateFront(ch.deadline, TermsOf(ch).fundingAmount, NextPuzzleHash(c, m, ch),
              if KindOf(ch) == Initial then Some(ch.birth) else None)
    + Signatures(ExpectedSignatures(ch))
  }

  lemma LateConditionsPass(c: Crypto, m: Modules, ch: Challenge)
    ensures CheckConditions(c, m, ch, LateChallenge(c, m, ch)).Pass?
    ensures Asserts(LateChallenge(c, m, ch), ASSERT_BEFORE_HEIGHT_ABSOLUTE, TWO_64 + ch.deadline)
  {
    var birth := if KindOf(ch) == Initial then Some(ch.birth) else None;
    LatePasses(ch.deadline, TermsOf(ch).fundingAmount, NextPuzzleHash(c, m, ch), birth, ExpectedSignatures(ch));
    LateBirthPasses(ch.deadline, TermsOf(ch).fundingAmount, NextPuzzleHash(c, m, ch), birth, ExpectedSignatures(ch));
  }

  /** For every challenge the packages and heights allow, there is a CLVM whose answer is accepted as its spend, and
      which bounds that spend only by a height 2^64 past the deadline. */
  lemma LateChallengeAccepted(c: Crypto, m: Modules, ch: Challenge)
    requires CheckStates(c, ch).Pass? && CheckDeadline(ch).Pass?
    ensures var vm: Vm := _ => Success(ListNode(ConditionNodes(LateChallenge(c, m, ch))));
            && SpendMaterial(c, m, vm, ch).Success?
            && ChallengeRun(c, vm, ch) == Success(LateChallenge(c, m, ch))
            && Asserts(LateChallenge(c, m, ch), ASSERT_BEFORE_HEIGHT_ABSOLUTE, TWO_64 + ch.deadline)
            && !ChallengeDoes(SpendMaterial(c, m, vm, ch).value, LateChallenge(c, m, ch))
  {
    EveryListIsRead(LateChallenge(c, m, ch));
    LateConditionsPass(c, m, ch);
  }
}
