# XHub V3.6: a verified model

This project models the V3.6 payment channel of XHub in Dafny and proves what it promises: the HUB that
signs reservations crash-safely, the ledger, Merkle tree and canonical codec it signs over, the closing and
challenge rules, and the watchtower's audit chain, execution authorizations, custody quorum and approval quorum.
`dafny verify dfyconfig.toml` checks all of it.

## How it is laid out

- **Bytes, codec, tree.** `ByteStrings`, `Protocol`, `Encoding`, `Types`, `Codec`, `Wire`, `Merkle`. Parsers and encoders
  are functions of byte strings; `Encoding.Decoder`, `Encoding.Output` and the methods of `Wire` are the program's
  offset-advancing decoder and appending encoders, proved to compute them. `Layout` says the same bytes by offsets, and
  `MerkleTree` the same tree by height and index.
- **Ledgers and packages.** `Ledgers`, `Packages`, `Preimages`; `Evidence` says what every signature check accepts.
- **The HUB.** `HubRecords` (rows and reads), `HubGate` (the chain gate), `HubSteps` (each transaction and read as a
  function of the database it finds), `HubInvariant`, `HubSafety`, `HubReads`, `HubDecide`, `HubProgress`, `HubCommit`
  (the invariant and why each step keeps it), `HubMachine` (any number of calls, each stopped between any two database
  accesses), `HubRuns`, `HubTheorems`, `HubHistory`, `HubRecovery`, `HubClosure`, `HubRejections`, `HubAvailability`,
  `HubUnloadable` (what every run keeps), `HubTrace`, `HubPeaks`, `HubAnswers`, `HubAdmissions` (what each event records,
  what is answered, and when), `HubStore` (the store as a class whose methods are proved to be the machine's
  uninterrupted calls).
- **Closing.** `Clvm`, `Closing`, `Challenges`; `Misreadings`, outputs that pass every check and do something else; and
  `HubChallenges`, which joins the challenges to the HUB.
- **The watchtower.** `Audit`, `Authorization`, `Custody`, `Approval`, each with its store class; `AuthorizationGrounds`,
  `CustodyRecords`, `ApprovalCredentials` say what each stored record stands on; `CustodyCrowd` is one long run of the
  custody store, and `Watchtower` holds what they share.

## What is assumed

SHA-256, BLS, CLVM tree hashing and CLVM execution are uninterpreted. Nothing says a hash is injective: a statement
that needs it assumes `CollisionFree` of the finite set of strings it names, so it reads "or here are two strings that
collide". Of BLS, only `SignsCorrectly` is assumed, and only where availability is claimed: a signature made with a key
verifies under that key. Signing is deterministic, since it is a function. The CLVM may answer any spend with anything.

A HUB table is grouped under the funding coin its key begins with. A stored blob is modelled by the value it decodes
to, with the decoder's checks made on every load; the round trips of `Codec` make that exact. Each transaction is one
step; so is each read outside a transaction. A crash may fall between any two steps.

The watchtower's service holds its store behind one lock (`V3.6/watchtower-v3_6/src/api.rs:33-43`), so in `Audit`,
`Authorization`, `Custody` and `Approval` a whole call is one step of a run. The machine of `HubMachine` assumes no such
lock: its calls interleave between any two database accesses.

## Where the code and its promises differ

- **Rejections for want of room.** `V3.6/hub-v3_6/README.md:52` promises a signed rejection when the ledger is full or the
  remainder too small. `reserve_internal` sets the entry index before it validates the ledger (lib.rs:670), so such a
  rejection is stored with an index, and `validate_reservation_binding` then refuses the row for ever (lib.rs:1997-2000).
  The reservation is never answered and `recover_pending` fails from then on. `HubRejections.StuckIff` says, before the
  call, exactly when such a row arises, `StuckForEver` and `StuckBlocksRecovery` what follows, and `OverspendExample`
  shows one.
- **Spends and cutoffs.** The spent branch of the gate moves the birth height but not the cutoff.
  `HubGate.GateKeepsHeightsIff` gives the exact condition under which the channel still loads. A reservation taken while
  the coin is seen spent at another birth leaves a prepared row on a channel that does not load
  (`HubUnloadable.SpendExample`); it never loads again (`UnloadableForEver`), the row is never answered
  (`DoomedIsUnanswered`), and recovery fails from then on (`DoomedBlocksRecovery`).
- **Recovery.** These two and a foreign key are all that can stop `recover_pending`: `HubClosure.RecoveryRuns` and
  `HubAvailability.RecoverySucceedsIff` give its exact condition, for every database and after every run.
- **Moves of the coin and the peak.** A gate that sees the coin or the peak moved answers `CHANNEL_REORG_PENDING` and records
  what it saw, so the very same snapshots open the next gate (`HubPeaks.MoveIsReportedOnceIff`), while
  `V3.6/hub-v3_6/HTTP-API.md:52` has the wallet pause until the chain state is certain. No gate opens behind the peak
  recorded last (`HubPeaks.NoGateOpensBehind`).
- **Clocks.** Nothing compares the time of a submission with the time of the authorization it consumes. A receipt is before
  its authorization's expiry always, and not before its issue when the clock never ran back
  (`AuthorizationGrounds.ReceiptIsGrounded`).
- **Empty anchors.** An audit anchor of no events stops matching at the first append (`Audit.AnchorPersistsIff`).
- **Long atoms.** Opcodes, amounts and heights are all read modulo 2^64 (closing.rs:969-973, 983). A counted condition may
  therefore not be the one-byte opcode it is counted as, and an amount may be 2^64 more than was checked.
  `Clvm.LongAtomReadsShort` names the atoms; `Closing.MisnamedFinalizePaysNobody` is an output that passes every finalize
  check and creates nothing.
  `Misreadings` has an accepted forward that overpays, a start of closing that waits too long and a challenge that comes too
  late. `Closing.FinalizeDoesIff`, `FinalizeConservesIff`, `ForwardPaysIff`, `FundingMovesIff` and
  `Challenges.ChallengeKeepsTheMoneyIff` say exactly when an accepted spend does what was checked.
- **Counts of keys.** `production_greenlight_status` fails once 65536 distinct keys have attested one entry, so a greenlight
  that was on is then refused (`Custody.ReadinessIsMonotoneIff`, and `CustodyCrowd.CrowdExample` for a run that gets there).
- **Approvals and the chain.** Reading the status of a fresh preparation rewrites its status to one that a later change of
  the funding coin's chain view does not look for (`Approval.FundingChangeStopsIff`,
  `Approval.ReadingHidesFromFundingChange`).

## Model

| member | source | states |
|---|---|---|
| Encoding.Decoder.Take | V3.6/protocol-v3_6/src/encoding.rs:47-60 | advances past exactly the next n bytes and returns them, or reports the end of input and stays where it was |
| Encoding.Decoder.Blob | V3.6/protocol-v3_6/src/encoding.rs:86-104 | reads a length and that many bytes, refusing a length over the limit before touching the data |
| Encoding.Decoder.Bool | V3.6/protocol-v3_6/src/encoding.rs:78-84 | accepts only the tags 0 and 1 |
| Encoding.Decoder.Finish | V3.6/protocol-v3_6/src/encoding.rs:39-45 | passes exactly when nothing is left, and otherwise reports how many bytes are |
| Encoding.PrimitiveRoundTrips | V3.6/protocol-v3_6/src/encoding.rs:47-131 | every fixed-width field, integer and flag decodes to itself in front of any tail and leaves the tail |
| Encoding.PrimitivesCanonical | V3.6/protocol-v3_6/src/encoding.rs:47-131 | whatever a primitive reads, its encoding followed by the rest is exactly the input |
| ByteStrings.FromToBE | V3.6/protocol-v3_6/src/encoding.rs:66-76 | a value that fits comes back from its big-endian bytes |
| ByteStrings.ToFromBE | V3.6/protocol-v3_6/src/encoding.rs:107-117 | any bytes are the encoding of the number they read as |
| Codec.TermsRoundTrip | V3.6/protocol-v3_6/src/types.rs:117-132 | decoding the encoding of channel terms that decode at all, followed by any tail, gives them back and leaves the tail |
| Codec.TermsCanonical | V3.6/protocol-v3_6/src/types.rs:134-157 | bytes that decode as channel terms are exactly their encoding followed by the rest |
| Codec.EntryRoundTrip | V3.6/protocol-v3_6/src/types.rs:217-224 | decoding the encoding of ledger entries that decode at all, followed by any tail, gives them back and leaves the tail |
| Codec.EntryCanonical | V3.6/protocol-v3_6/src/types.rs:226-237 | bytes that decode as ledger entries are exactly their encoding followed by the rest |
| Codec.CheckpointRoundTrip | V3.6/protocol-v3_6/src/types.rs:285-296 | decoding the encoding of checkpoints that decode at all, followed by any tail, gives them back and leaves the tail |
| Codec.CheckpointCanonical | V3.6/protocol-v3_6/src/types.rs:298-311 | bytes that decode as checkpoints are exactly their encoding followed by the rest |
| Codec.OfficialStateRoundTrip | V3.6/protocol-v3_6/src/types.rs:330-335 | decoding the encoding of signed states that decode at all, followed by any tail, gives them back and leaves the tail |
| Codec.OfficialStateCanonical | V3.6/protocol-v3_6/src/types.rs:337-346 | bytes that decode as signed states are exactly their encoding followed by the rest |
| Codec.PackageRoundTrip | V3.6/protocol-v3_6/src/types.rs:525-548 | decoding the encoding of recovery packages, with their two lists that decode at all, followed by any tail, gives them back and leaves the tail |
| Codec.PackageCanonical | V3.6/protocol-v3_6/src/types.rs:550-585 | bytes that decode as recovery packages, with their two lists are exactly their encoding followed by the rest |
| Codec.ConfirmationRoundTrip | V3.6/protocol-v3_6/src/types.rs:614-626 | decoding the encoding of delivery confirmations that decode at all, followed by any tail, gives them back and leaves the tail |
| Codec.ConfirmationCanonical | V3.6/protocol-v3_6/src/types.rs:628-648 | bytes that decode as delivery confirmations are exactly their encoding followed by the rest |
| Codec.SignedResultRoundTrip | V3.6/protocol-v3_6/src/types.rs:827-832 | decoding the encoding of signed reservation results that decode at all, followed by any tail, gives them back and leaves the tail |
| Codec.SignedResultCanonical | V3.6/protocol-v3_6/src/types.rs:834-843 | bytes that decode as signed reservation results are exactly their encoding followed by the rest |
| Codec.DoubleSignRoundTrip | V3.6/protocol-v3_6/src/types.rs:896-901 | decoding the encoding of double-sign evidence that decode at all, followed by any tail, gives them back and leaves the tail |
| Codec.DoubleSignCanonical | V3.6/protocol-v3_6/src/types.rs:903-910 | bytes that decode as double-sign evidence are exactly their encoding followed by the rest |
| Codec.ConflictRoundTrip | V3.6/protocol-v3_6/src/types.rs:963-968 | decoding the encoding of conflicting-result evidence that decode at all, followed by any tail, gives them back and leaves the tail |
| Codec.ConflictCanonical | V3.6/protocol-v3_6/src/types.rs:970-977 | bytes that decode as conflicting-result evidence are exactly their encoding followed by the rest |
| Codec.ResultRoundTrip | V3.6/protocol-v3_6/src/types.rs:736-764 | a valid reservation result decodes from its encoding in front of any tail |
| Codec.ResultCanonical | V3.6/protocol-v3_6/src/types.rs:766-805 | bytes that decode as a reservation result are its encoding, and it is valid |
| Layout.TermsLayout | V3.6/protocol-v3_6/src/types.rs:117-132 | the 242 bytes of terms hold each field at its offset |
| Layout.EntryLayout | V3.6/protocol-v3_6/src/types.rs:217-224 | the 120 bytes of an entry hold each field at its offset |
| Layout.CheckpointLayout | V3.6/protocol-v3_6/src/types.rs:285-296 | the 160 bytes of a checkpoint hold each field at its offset |
| Layout.OfficialStateLayout | V3.6/protocol-v3_6/src/types.rs:330-335 | a signed state is its checkpoint and then 96 bytes of signature |
| Layout.PackageLayout | V3.6/protocol-v3_6/src/types.rs:525-548 | a package holds its coin, its counted puzzle reveal, amount, terms, state, and its two counted lists, each entry 120 and each signature 96 bytes on |
| Layout.ConfirmationLayout | V3.6/protocol-v3_6/src/types.rs:614-626 | the 210 bytes of a confirmation hold each field at its offset |
| Layout.ResultLayout | V3.6/protocol-v3_6/src/types.rs:736-764 | a result holds each field at its offset, the two optional ones behind a tag that moves what follows |
| Layout.StatusCodes | V3.6/protocol-v3_6/src/types.rs:652-670 | the number each status travels as |
| Layout.AuthorizationLayout | V3.6/protocol-v3_6/src/types.rs:177-199 | what a user signs is the tag, version, network, coin, terms hash and entry, in that order |
| Layout.EntryPreimageLayout | V3.6/protocol-v3_6/src/types.rs:201-214 | what an entry hash is of: the tag, the place, the entry and its authorization hash |
| Layout.CheckpointPreimageLayout | V3.6/protocol-v3_6/src/types.rs:270-278 | what a checkpoint hash is of: the tag, version, network and checkpoint |
| Layout.StateZeroLayout | V3.6/protocol-v3_6/src/types.rs:369-383 | what state zero's hash is of: the tag, version, network, coin, terms hash, funding and remainder puzzle |
| Layout.SignedLayouts | V3.6/protocol-v3_6/src/types.rs:727-734 | the tags before hashed terms, a signed checkpoint hash and a signed result |
| Wire.DecodePackage | V3.6/protocol-v3_6/src/types.rs:550-585 | the loop-based decoder computes the package parser and leaves the decoder where the parser stops |
| Wire.DecodeTerms | V3.6/protocol-v3_6/src/types.rs:134-157 | advances the decoder exactly as the terms parser reads |
| Wire.DecodeEntries | V3.6/protocol-v3_6/src/types.rs:561-564 | the counted loop reads exactly that many entries, or ends with the first error |
| Wire.DecodeSignatures | V3.6/protocol-v3_6/src/types.rs:569-574 | the counted loop reads that many signatures and refuses the first that does not parse |
| Wire.DecodeResult | V3.6/protocol-v3_6/src/types.rs:766-805 | reads status, optional fields and heights in wire order and validates the result |
| Wire.DecodeProof | V3.6/protocol-v3_6/src/merkle.rs:158-187 | reads the counted steps, refusing more than 64 and any direction but 0 or 1 |
| Wire.EncodeTermsTo | V3.6/protocol-v3_6/src/types.rs:117-132 | appends exactly the encoding of the terms to the buffer |
| Wire.EncodePackageTo | V3.6/protocol-v3_6/src/types.rs:525-548 | appends exactly the encoding of the package, both lists included |
| Wire.EncodeResultTo | V3.6/protocol-v3_6/src/types.rs:736-764 | appends exactly the encoding of the result |
| Wire.EncodeProofTo | V3.6/protocol-v3_6/src/merkle.rs:143-156 | appends exactly the encoding of the proof |
| Wire.PackageFromCanonicalBytes | V3.6/protocol-v3_6/src/encoding.rs:16-21 | accepts an input exactly when it decodes with nothing left, and the input is then the canonical encoding of what is returned |
| Wire.PackageCanonicalBytes | V3.6/protocol-v3_6/src/encoding.rs:6-10 | writes the canonical encoding, which decodes to the package whenever the package is decodable |
| Merkle.MerkleRoot | V3.6/protocol-v3_6/src/merkle.rs:22-38 | the level-by-level loop computes the recursive root of the duplicate-last tree |
| Merkle.Build | V3.6/protocol-v3_6/src/merkle.rs:60-97 | rejects an index out of range or sizes over u32, and otherwise returns the sibling path of the leaf |
| Merkle.CalculateRoot | V3.6/protocol-v3_6/src/merkle.rs:99-132 | the cursor loop computes the recursive walk, with its index, direction and length errors |
| Merkle.Verify | V3.6/protocol-v3_6/src/merkle.rs:134-140 | passes exactly when the recomputed root is the expected one |
| Merkle.BuiltProofVerifies | V3.6/protocol-v3_6/src/merkle.rs:60-132 | the path built for any leaf of any non-empty list recomputes exactly the root, duplicate-last levels included |
| Merkle.ProofLength | V3.6/protocol-v3_6/src/merkle.rs:60-97 | a built path has exactly ceil(log2 n) steps |
| Merkle.AcceptedIffBuilt | V3.6/protocol-v3_6/src/merkle.rs:99-140 | under the root of a list, a proof of the right leaf count is accepted if and only if it is the built proof of the list's own leaf, unless two hashed strings collide |
| Merkle.RootInjective | V3.6/protocol-v3_6/src/merkle.rs:22-38 | lists of equal length with equal roots are equal, unless two hashed strings collide |
| Merkle.RootIgnoresRepeatedLast | V3.6/protocol-v3_6/src/merkle.rs:22-38 | repeating an odd last leaf leaves the root unchanged, so the count has to be committed beside it |
| MerkleTree.RootIsTop | V3.6/protocol-v3_6/src/merkle.rs:22-38 | the root is the one node at the top of the tree whose node at a height and index is the hash of the two below it, left first, the last of an odd level doubled |
| MerkleTree.PathStepIs | V3.6/protocol-v3_6/src/merkle.rs:60-97 | step k of a built proof is the sibling of the leaf's ancestor at height k, marked left exactly when that ancestor's index is odd |
| MerkleTree.TreeIs | V3.6/protocol-v3_6/src/merkle.rs:22-97 | both of the program's root and of the proof it builds, which has one step for each height |
| Merkle.ProofRoundTrip | V3.6/protocol-v3_6/src/merkle.rs:143-187 | a proof of at most 64 steps decodes from its encoding in front of any tail |
| Merkle.ProofCanonical | V3.6/protocol-v3_6/src/merkle.rs:158-187 | bytes that decode as a proof are its encoding, with at most 64 steps |
| Layout.TreeLayouts | V3.6/protocol-v3_6/src/merkle.rs:5-20 | what a leaf, a node and the empty tree are hashes of |
| Layout.StepsLayout | V3.6/protocol-v3_6/src/merkle.rs:143-156 | each step of an encoded proof is a byte for its side, one for left, and the sibling |
| Layout.ProofLayout | V3.6/protocol-v3_6/src/merkle.rs:143-156 | an encoded proof begins with leaf index, leaf count and number of steps |
| Merkle.BuiltProofsFitTheWire | V3.6/protocol-v3_6/src/merkle.rs:60-97 | every proof the builder makes has at most 32 steps, so it can be decoded again |
| Ledgers.Validate | V3.6/protocol-v3_6/src/types.rs:391-412 | the loop with its running total and nonce set computes the ledger verdict, first error first |
| Ledgers.LedgerAcceptedIffValid | V3.6/protocol-v3_6/src/types.rs:391-412 | a ledger is accepted if and only if it has at most 64 valid entries with distinct nonces and a total within the funding; the addition never overflows |
| Ledgers.AppendVerdict | V3.6/protocol-v3_6/src/types.rs:391-412 | appending one fresh valid entry to a valid ledger: full at 64, out of range, too expensive, or accepted with the exact new totals |
| Ledgers.FirstErrorStands | V3.6/protocol-v3_6/src/types.rs:396-406 | an error met in a prefix is the error of the whole ledger |
| Packages.LeavesOfValid | V3.6/protocol-v3_6/src/types.rs:414-431 | for valid terms and entries the leaf hashes are exactly the indexed entry digests |
| Packages.CheckpointOfValid | V3.6/protocol-v3_6/src/types.rs:441-462 | a valid ledger always gets its checkpoint: its root, its count, its total and the remaining funding |
| Packages.AuthorizationsMeaning | V3.6/protocol-v3_6/src/types.rs:505-512 | the signature loop passes exactly when every entry's authorization verifies |
| Packages.PackageAcceptedIffValid | V3.6/protocol-v3_6/src/types.rs:476-514 | a recovery package is accepted if and only if its ledger is valid, its checkpoint commits to it, and every signature verifies |
| Packages.CheckpointBindsLedger | V3.6/protocol-v3_6/src/types.rs:177-214 | two valid packages with one checkpoint hash carry the same coin, terms and entries in the same order, unless two hashed strings collide |
| Packages.CheckpointBindsTerms | V3.6/protocol-v3_6/src/types.rs:270-278 | equal checkpoint hashes mean equal checkpoints and equal terms, unless two hashed strings collide |
| Preimages.SignedMessageKindsDiffer | V3.6/protocol-v3_6/src/types.rs:280-283 | a state message and a result message are never the same string |
| Preimages.ResultPreimageInjective | V3.6/protocol-v3_6/src/types.rs:727-734 | the string hashed for a valid result determines the result |
| Evidence.VerifyHashIff | V3.6/protocol-v3_6/src/crypto.rs:16-46 | a signature verifies if and only if key and signature decode, neither is the point at infinity, and BLS accepts |
| Evidence.AuthorizationVerifiesIff | V3.6/protocol-v3_6/src/types.rs:177-199 | a user authorization verifies if and only if entry and terms are valid and the user's key signed the hash of terms, coin and entry |
| Evidence.StateVerifiesIff | V3.6/protocol-v3_6/src/types.rs:313-328 | a state verifies if and only if its checkpoint is valid and the HUB's key signed the tagged checkpoint hash |
| Evidence.ResultVerifiesIff | V3.6/protocol-v3_6/src/types.rs:807-825 | a signed result verifies if and only if it is valid, of the terms' network, and the HUB's key signed its hash |
| Evidence.DoubleSignValidIff | V3.6/protocol-v3_6/src/types.rs:865-885 | double-sign evidence validates if and only if both states verify for one coin and sequence and the first hash, read as a number, is the smaller; the checkpoints then differ |
| Evidence.ConflictValidIff | V3.6/protocol-v3_6/src/types.rs:932-952 | conflict evidence validates if and only if both results verify for one coin and nonce and the first hash, read as a number, is the smaller; the results then differ |
| Evidence.DoubleSignMadeIff | V3.6/protocol-v3_6/src/types.rs:851-863 | evidence can be made of two states if and only if both verify for one coin and sequence with different hashes; in either order it is the same evidence, and it validates |
| Evidence.ConflictMadeIff | V3.6/protocol-v3_6/src/types.rs:918-930 | the same of two results |
| Types.TermsFacts | V3.6/protocol-v3_6/src/types.rs:87-106 | terms are valid exactly when all periods and the funding are positive and in range, the close delay is their sum, the ledger limit is 64 and both keys parse |
| Evidence.EntryValidIff | V3.6/protocol-v3_6/src/types.rs:168-175 | an entry is valid exactly when it pays a positive protocol integer to a merchant whose receipt key decodes |
| Types.CheckpointFacts | V3.6/protocol-v3_6/src/types.rs:252-268 | a checkpoint is valid for its terms exactly when it names them, is in range, and its totals add up to the funding |
| Evidence.ResultValidIff | V3.6/protocol-v3_6/src/types.rs:714-725 | a result is valid exactly when its heights and sequence are protocol integers and it names a sequence exactly when it names a checkpoint |
| HubGate.ChannelRecord.EvaluateSnapshots | V3.6/hub-v3_6/src/lib.rs:1434-1689 | runs the gate on the record in place and leaves it as the gate function says, or unchanged when the gate fails; the `HubPeaks` rows say what that is |
| HubGate.ChannelRecord.PersistObservation | V3.6/hub-v3_6/src/lib.rs:1720-1768 | stores state, activation, the three heights, and the peak's height and hash when one was seen, keeping the last known one otherwise; or refuses a height no column can hold and stores nothing |
| HubGate.ChainGateOpensIff | V3.6/hub-v3_6/src/lib.rs:1434-1689 | the chain gate opens if and only if both snapshots are usable, show the same unmoved coin, the peak is not below the stored one, the channel is deep enough, and the peak is below both the cutoff this birth allows and, once activated, the stored cutoff |
| HubGate.GateKeepsCutoff | V3.6/hub-v3_6/src/lib.rs:1638-1656 | no gate resets activation or raises the cutoff of an activated channel, and none touches terms, puzzle or head |
| HubGate.GateMovesHeights | V3.6/hub-v3_6/src/lib.rs:1583-1674 | heights move only when the coin is seen; a spend moves the birth and the close but not the cutoff |
| HubGate.GateKeepsHeightsIff | V3.6/hub-v3_6/src/lib.rs:1583-1600 | a gate leaves the channel loadable if and only if it saw no spend, or the spend's birth height leaves the old cutoff within its bound |
| HubGate.OpenGateIsBeforeFreeze | V3.6/hub-v3_6/src/lib.rs:1411-1432 | an open gate, manual or on chain, means the height is before the cutoff and the whole freeze fits before the close |
| HubPeaks.GateRecordsPeak | V3.6/hub-v3_6/src/lib.rs:1720-1768 | a gate that succeeds leaves as last peak the height and hash of the peak it obtained, the committed snapshot's or failing that the first one's, or the one before when it obtained none, and observes that height |
| HubPeaks.GateSucceedsIff | V3.6/hub-v3_6/src/lib.rs:1411-1768 | a gate fails if and only if a height it has to store does not fit its column |
| HubPeaks.VerdictIsWarrantedIff | V3.6/hub-v3_6/src/lib.rs:1434-1689 | for each of the seven verdicts, a chain gate gives it if and only if the two snapshots and the stored row show what it stands for, and leaves the channel in the state that goes with it; it activates the channel exactly when the coin is deep enough |
| HubPeaks.StoredPeakIsLast | V3.6/hub-v3_6/src/lib.rs:1731-1766 | over every run a stored channel holds, height and hash, the peak recorded last: by its registration, or by the gate of the last reservation that wrote a row and obtained one |
| HubPeaks.NoGateOpensBehind | V3.6/hub-v3_6/src/lib.rs:1540-1549 | over every run no chain gate opens at a height below the peak recorded last, or at its height on another block, nor so behind its own first snapshot |
| HubPeaks.MoveIsReportedOnceIff | V3.6/hub-v3_6/src/lib.rs:1600-1674 | after a gate blocked because the coin or the peak moved, the same snapshots open the next gate if and only if they agree with each other and the freeze has not begun |
| HubReads.ChannelLoadsIff | V3.6/hub-v3_6/src/lib.rs:1770-1877 | a well-formed channel loads exactly when its recorded heights bind to its terms |
| HubReads.BindingHoldsIff | V3.6/hub-v3_6/src/lib.rs:1974-2007 | every stored reservation row passes the binding check except a rejection for want of room |
| HubReads.LedgerLoads | V3.6/hub-v3_6/src/lib.rs:2031-2057 | the stored ledger always loads whole and in order |
| HubDecide.OneMoreEntryIsACandidate | V3.6/hub-v3_6/src/lib.rs:2059-2104 | the stored ledger with one more authorized entry, under its own checkpoint, passes every candidate check |
| HubDecide.OpenDecision | V3.6/hub-v3_6/src/lib.rs:664-709 | the whole decision behind an open gate: pending transition, full, out of range, too expensive, or the one next checkpoint over the appended ledger |
| HubProgress.RegisterKeeps | V3.6/hub-v3_6/src/lib.rs:467-531 | registration adds one empty well-formed channel, or changes nothing when the coin is registered |
| HubProgress.PrepareKeeps | V3.6/hub-v3_6/src/lib.rs:594-757 | the first transaction keeps every channel well-formed and only adds to the database |
| HubAdmissions.RegisterSucceedsIff | V3.6/hub-v3_6/src/lib.rs:467-531 | a registration succeeds if and only if terms, puzzle and heights are good, the numbers fit, and the coin is new or stored just so with its heights unmoved; it then adds one channel with the row asked for, field by field, or changes nothing |
| HubAdmissions.SnapshotSays | V3.6/hub-v3_6/src/lib.rs:820-838 | a snapshot of a channel that loads repeats its stored row, with as many entries as its sequence |
| HubAdmissions.PrepareSucceedsIff | V3.6/hub-v3_6/src/lib.rs:594-757 | the first transaction for a fresh nonce succeeds if and only if the request decodes, its channel loads and is the key's, the gate's heights fit, and, when the user authorized it and the gate is open, no state is being prepared, the total stays in range unless the ledger is full, and no stored intent has the new checkpoint's hash |
| HubAdmissions.StopsAfterPreparation | V3.6/hub-v3_6/src/lib.rs:757-769 | the failure injected after the preparing commit leaves the prepared database and no signature, and without it the call goes on to finalize its row |
| HubCommit.CommitIs | V3.6/hub-v3_6/src/lib.rs:1181-1299 | the second transaction is exactly: nothing if another call finalized the row, the load error, or the one finalized channel, which is well-formed |
| HubCommit.PreparedTargetsHead | V3.6/hub-v3_6/src/lib.rs:1193-1201 | a prepared acceptance always targets the state right after the head, at the ledger's end |
| HubSafety.StateCommitted | V3.6/hub-v3_6/src/lib.rs:1196-1284 | appending a prepared state keeps rows, states, intents and reservations consistent, one state longer |
| HubSafety.AcceptancePrepared | V3.6/hub-v3_6/src/lib.rs:711-757 | writing an acceptance and its intent keeps every table consistent |
| HubSafety.RejectionFinalized | V3.6/hub-v3_6/src/lib.rs:1286-1299 | finalizing a rejection changes its own row only and keeps every table consistent |
| HubRuns.AdvanceOk | V3.6/hub-v3_6/src/lib.rs:594-1370 | one database access of any call, with anything else happening in between, keeps the database well-formed, only adds to it, and signs only what is stored |
| HubRuns.TaskStable | V3.6/hub-v3_6/src/lib.rs:1115-1305 | what a call has read and signed stays true whatever other calls do |
| HubTrace.EventRecords | V3.6/hub-v3_6/src/lib.rs:594-757 | of all events of a run only the first transaction of a reservation records a peak or adds a row, on its own channel |
| HubTheorems.RunOk | V3.6/hub-v3_6/src/lib.rs:594-1305 | every machine reachable by registrations, calls, interleavings and crashes is well-formed |
| HubTheorems.RunContinues | V3.6/hub-v3_6/src/lib.rs:594-1305 | a longer run only adds to the database, the signature log and the answers |
| HubTheorems.NoDoubleSigning | V3.6/hub-v3_6/src/lib.rs:1150-1160 | over every run the HUB never signs two different checkpoints for one coin and sequence |
| HubTheorems.NoDoubleSignEvidence | V3.6/protocol-v3_6/src/types.rs:865-885 | no double-sign evidence over two messages the HUB signed validates, whatever its signature bytes, unless two hashed strings collide |
| HubTheorems.OneAnswer | V3.6/hub-v3_6/src/lib.rs:1307-1352 | all successful answers for one coin and nonce over a run are equal, package included |
| HubTheorems.NoConflictingResultEvidence | V3.6/protocol-v3_6/src/types.rs:932-952 | no conflicting-result evidence over two results the HUB signed validates, unless two hashed strings collide |
| HubAnswers.AnswersAreTrue | V3.6/hub-v3_6/src/lib.rs:2009-2029 | over every run an answer is signed by the channel's HUB key over this coin and nonce; its status is Signed if and only if the nonce is a ledger entry's, and it then carries that entry's sequence, the hash and the valid package of the state it made, and heights before cutoff and close; any other answer carries no state and is no rejection for want of room |
| HubAnswers.AnswersTheFirstRequest | V3.6/hub-v3_6/src/lib.rs:650-757 | over every run an answer repeats the request id and authorization hash of the one request whose first transaction wrote its row; its status is InvalidAuthorization exactly when that authorization fails, and otherwise the verdict its gate's snapshots warrant; and it gives the height that gate observed and the cutoff and close it left |
| HubAnswers.CallAnswersTruly | V3.6/hub-v3_6/src/lib.rs:1115-1352 | an uninterrupted reservation, finalization or lookup on any well-formed store answers for its own coin and nonce, and as truly |
| HubAnswers.RecoveryAnswersTruly | V3.6/hub-v3_6/src/lib.rs:772-800 | a recovery that succeeds returns one answer for each row it was given, in order, each true of the store it leaves |
| HubHistory.StatesAreLinked | V3.6/hub-v3_6/src/lib.rs:1181-1284 | in every reachable channel the states are numbered 1..n, n the ledger length and at most 64, each verifying and hash-linked down to state zero |
| HubHistory.PreparedIntentIsNext | V3.6/hub-v3_6/src/lib.rs:315-334 | at most one intent is prepared, always the head's successor; every other is the state it became |
| HubHistory.PackagesArePrefixes | V3.6/hub-v3_6/src/lib.rs:1163-1176 | every stored package is valid and an earlier one's entries and signatures are a prefix of a later one's |
| HubHistory.FundingIsConserved | V3.6/protocol-v3_6/src/types.rs:251-268 | reserved plus remainder is the funding in every state, and each state leaves exactly its entry's amount less |
| HubHistory.SignedReservationsAreTheLedger | V3.6/hub-v3_6/src/lib.rs:1238-1252 | the signed acceptances and the ledger entries have the same nonces, so there are equally many |
| HubHistory.AcceptedBeforeFreeze | V3.6/hub-v3_6/src/lib.rs:1642-1674 | every accepted reservation was observed before its recorded cutoff with the whole freeze left before its recorded close |
| HubHistory.CutoffNeverRises | V3.6/hub-v3_6/src/lib.rs:1638-1656 | along every run an activated channel stays activated and its cutoff never rises |
| HubRecovery.FinalizationIsAtomic | V3.6/hub-v3_6/src/lib.rs:1115-1305 | a finalization stopped after any number of steps, or by the injected failure, has written nothing or everything; uninterrupted it returns the outcome fixed at preparation |
| HubClosure.FinalizationSucceedsIff | V3.6/hub-v3_6/src/lib.rs:1115-1305 | finalizing a prepared row succeeds if and only if its channel loads, the key is the channel's and the row is not a rejection for want of room |
| HubClosure.CompletionKeepsClosure | V3.6/hub-v3_6/src/lib.rs:1115-1305 | finalizing any row leaves what will finally be stored unchanged: it was fixed at preparation |
| HubClosure.RecoveryRuns | V3.6/hub-v3_6/src/lib.rs:772-800 | recovering every prepared row of any well-formed store, in any order, succeeds if and only if each one's channel loads and is the key's and the row is no rejection for want of room; it then leaves none prepared and exactly the rows fixed at preparation |
| HubClosure.CrashIsTransparent | V3.6/hub-v3_6/src/lib.rs:760-770 | once a reservation is prepared, a crash after any number of further steps, once recovered, leaves exactly the rows an uninterrupted call leaves once recovered |
| HubClosure.RecoveryEqualsUninterrupted | V3.6/hub-v3_6/src/lib.rs:772-800 | with no other row prepared, recovery after a crash gives the uninterrupted call's database itself |
| HubRejections.KnownNonce | V3.6/hub-v3_6/src/lib.rs:611-640 | a nonce in use is never prepared again: same fingerprint finds the row, another is a nonce conflict, nothing is written, whatever the gate, time or request id |
| HubRejections.NonceConflictIff | V3.6/hub-v3_6/src/lib.rs:149-157 | reusing a nonce is accepted if and only if entry and signature are those it was first used with, unless two fingerprints collide |
| HubRejections.StuckIff | V3.6/hub-v3_6/src/lib.rs:661-733 | a preparation leaves a row that can never be finalized if and only if the request is authorized, the gate opens, no state is being prepared, and either the ledger is full or the total would exceed the funding while still a protocol integer; all of it can be checked before the call |
| HubRejections.StuckForEver | V3.6/hub-v3_6/src/lib.rs:1974-2007 | such a row stays prepared in every continuation and no call is ever answered for its nonce |
| HubRejections.StuckBlocksRecovery | V3.6/hub-v3_6/src/lib.rs:772-800 | one such row makes every recovery of a store that holds it fail, whatever the other rows |
| HubRejections.OverspendExample | V3.6/hub-v3_6/src/lib.rs:661-706 | a registration and one authorized reservation of one unit more than the funding make a run that stores such a row |
| HubAvailability.GentleRunsLoad | V3.6/hub-v3_6/src/lib.rs:1828-1846 | if every spend seen keeps the cutoff within its bound, every registered channel always loads |
| HubAvailability.RecoverySucceedsIff | V3.6/hub-v3_6/src/lib.rs:772-800 | after any run, with crashes anywhere, recovery succeeds if and only if every prepared row has a channel whose heights bind, the channel is the key's, and the row was not rejected for want of room; nothing is then left prepared |
| HubAvailability.GentleRecoverySucceedsIff | V3.6/hub-v3_6/src/lib.rs:772-800 | with one HUB key and every spend seen within its bound, rejections for want of room are the only cause of failure |
| HubUnloadable.UnloadableForEver | V3.6/hub-v3_6/src/lib.rs:1828-1846 | a channel whose recorded heights do not bind never loads again in any continuation |
| HubUnloadable.DoomedBlocksRecovery | V3.6/hub-v3_6/src/lib.rs:772-800 | a row prepared on such a channel, that no call has read in time, makes recovery fail in every continuation, with whatever key |
| HubUnloadable.DoomedIsUnanswered | V3.6/hub-v3_6/src/lib.rs:1115-1135 | no call is ever answered for the nonce of such a row |
| HubUnloadable.SpendExample | V3.6/hub-v3_6/src/lib.rs:1583-1597 | registering any channel and reserving on it while its coin is seen spent at a lower birth height is a run that ends with such a row |
| HubStore.HubStore.RegisterChannelRecord | V3.6/hub-v3_6/src/lib.rs:467-531 | inserts the channel unless it is registered, insists on what is stored, and returns its snapshot; on any error nothing changes |
| HubStore.HubStore.PrepareReservation | V3.6/hub-v3_6/src/lib.rs:602-757 | runs the first transaction: the database becomes the prepared one, or stays |
| HubStore.HubStore.CommitTransaction | V3.6/hub-v3_6/src/lib.rs:1181-1299 | runs the second transaction: all its writes, or none |
| HubStore.HubStore.CompletedReservation | V3.6/hub-v3_6/src/lib.rs:1307-1352 | re-reads channel, row and package and returns the stored outcome or the first error |
| HubStore.HubStore.FinalizePrepared | V3.6/hub-v3_6/src/lib.rs:1115-1305 | is the machine's uninterrupted finalization, in its database, its signatures and its result; what that result says is `HubAnswers.CallAnswersTruly` |
| HubStore.HubStore.ReserveInternal | V3.6/hub-v3_6/src/lib.rs:594-770 | is the machine's uninterrupted reservation, injected failures included; what it answers is `HubAnswers.CallAnswersTruly` |
| HubStore.HubStore.PendingRows | V3.6/hub-v3_6/src/lib.rs:778-788 | lists every prepared row of the store exactly once |
| HubStore.HubStore.RecoverPending | V3.6/hub-v3_6/src/lib.rs:772-800 | reads the store's own prepared rows and computes the recovery function over them, stopping at the first failure |
| Clvm.ListNodes | V3.6/puzzles-v3_6/src/closing.rs:955-967 | the walking loop returns the items of a proper list and nothing for any other node |
| Clvm.AtomIsModulo | V3.6/puzzles-v3_6/src/closing.rs:969-973 | the 64-bit fold reads an atom modulo 2^64 |
| Clvm.AtomExactIff | V3.6/puzzles-v3_6/src/closing.rs:969-973 | the fold reads an atom's value exactly when it is below 2^64, as every atom of at most eight bytes is |
| Clvm.LongAtomReadsShort | V3.6/puzzles-v3_6/src/closing.rs:969-983 | every 64-bit number, opcode or amount, has a nine-byte atom that reads as it and is 2^64 more |
| Clvm.MeantAreCounted | V3.6/puzzles-v3_6/src/closing.rs:1054-1058 | the conditions really named by an opcode's one byte are exactly those counted for it whose opcode atom is one byte long |
| Closing.SimulateRecoveryClosing | V3.6/puzzles-v3_6/src/closing.rs:281-518 | a settlement is accepted if and only if every check on the three kinds of spend passes, and then reports one payment per entry in order, the remainder, and the state, hashes and heights it settles; an invalid package is reported first, by its own error |
| Closing.SettlementRuns | V3.6/puzzles-v3_6/src/closing.rs:281-403 | an accepted settlement has run the start of closing, which asserts the coin's own id, the delay and the amount under one signature for the state and one for each entry, and then, in mode 2, a finalize of exactly the coin that start created; its report names that coin, its id, and the package's state, totals and heights |
| Closing.SettlementForwards | V3.6/puzzles-v3_6/src/closing.rs:404-484 | for every entry it has run the forward of exactly the coin that finalize created for it, and its report names that coin, its id, the merchant and the amount |
| Closing.ReportedSettlementConserves | V3.6/puzzles-v3_6/src/closing.rs:411-484 | the reported outputs add up to the funding |
| Closing.FinalizeDoesIff | V3.6/puzzles-v3_6/src/closing.rs:397-484 | for any CLVM output, an accepted finalize asserts its heights and creates exactly the expected coins, in order, if and only if every condition counted is named by one byte and every height and amount fits 64 bits |
| Closing.FinalizeConservesIff | V3.6/puzzles-v3_6/src/closing.rs:403-484 | for any CLVM output, the coins an accepted finalize creates are worth the funding if and only if every amount under a one-byte CREATE_COIN fits 64 bits and every condition under a longer opcode stood for an empty coin; they are worth more if and only if such an amount does not fit |
| Closing.MisnamedFinalizePaysNobody | V3.6/puzzles-v3_6/src/closing.rs:975-993 | for every package, an output under nine-byte opcodes passes every finalize check and creates no coin at all |
| Closing.ForwardPaysIff | V3.6/puzzles-v3_6/src/closing.rs:445-452 | for any CLVM output, an accepted forward pays the merchant one coin of the whole amount, and asserts that amount, if and only if both opcodes are one byte and both amounts fit 64 bits |
| Closing.FundingMovesIff | V3.6/puzzles-v3_6/src/closing.rs:321-349 | for any CLVM output, an accepted start of closing waits out the delay and moves the whole funding into the initial closing coin if and only if the opcodes counted are one byte and the integers fit 64 bits |
| Challenges.MaterialIsAccepted | V3.6/puzzles-v3_6/src/closing.rs:537-571 | an accepted challenge has valid packages of one channel, a strictly higher sequence, and the deadline of its birth plus the challenge blocks |
| Challenges.ChallengeAcceptedIff | V3.6/puzzles-v3_6/src/closing.rs:537-717 | a challenge is accepted if and only if packages, sequence, birth and deadline are good and its spend, run by the CLVM, has the conditions its material reports |
| Challenges.MaterialIsTrue | V3.6/puzzles-v3_6/src/closing.rs:537-925 | for any CLVM, the material returned for an accepted challenge describes the spend that was run, in mode 1: the coin its reveal and arguments hash to as the closing coin, the state there and the later state put in its place; and that run's conditions: the one coin created, under the puzzle hash returned as next, its amount and timelocks, and one signature for each that is checked |
| Challenges.ChallengesTheSettledCoin | V3.6/puzzles-v3_6/src/closing.rs:571-610 | the closing coin of an initial challenge is the initial coin a settlement of the same package reports |
| Challenges.ChallengeKeepsTheMoneyIff | V3.6/puzzles-v3_6/src/closing.rs:684-717 | for any CLVM output, an accepted challenge creates exactly one coin worth the whole channel under the puzzle hash it returns as next, valid only before the deadline and, for an initial coin, at its birth height, if and only if the opcodes of the conditions counted are one byte and their integers fit 64 bits |
| Challenges.OneLink | V3.6/protocol-v3_6/src/puzzle.rs:21-41 | of two challenges, the second returned as spending the coin the first was returned as creating: channel, deadline, birth and amount stay, and the second starts from exactly the state the first put there, unless two hashes collide |
| Challenges.ChainKeeps | V3.6/puzzles-v3_6/src/closing.rs:537-717 | along any chain of challenges linked by the puzzle hashes they return, the deadline stays the first birth plus the challenge blocks, channel and amount stay, and the sequence strictly rises |
| Misreadings.LongForwardOverpays | V3.6/puzzles-v3_6/src/closing.rs:445-452 | for every entry, some output passes as its forward and creates one coin worth 2^64 more than the payment |
| Misreadings.LongWaitAccepted | V3.6/puzzles-v3_6/src/closing.rs:321-349 | for every package, some output passes as its start of closing and waits 2^64 blocks longer than the close delay |
| Misreadings.LateChallengeAccepted | V3.6/puzzles-v3_6/src/closing.rs:684-717 | for every challenge its states and heights allow, some CLVM answer passes and is bounded only 2^64 blocks after the deadline |
| HubChallenges.StoreChainIsShort | V3.6/puzzles-v3_6/src/closing.rs:769-879 | a chain of challenges made with one store's packages has at most 64 links |
| Audit.AuditStore.AppendEvent | V3.6/watchtower-v3_6/src/audit.rs:222-284 | appends one event and moves the head together, or changes nothing |
| Audit.AuditStore.VerifyChain | V3.6/watchtower-v3_6/src/audit.rs:62-115 | the loop says valid exactly when events are numbered from one, each hashed over the one before, and the head is the last |
| Audit.AuditStore.CreateAnchor | V3.6/watchtower-v3_6/src/audit.rs:117-159 | records the count, head and time of a chain that verifies under the hash of all three, and fails exactly for an invalid chain, a range error or a conflicting row |
| Audit.AuditStore.VerifyAnchor | V3.6/watchtower-v3_6/src/audit.rs:191-220 | is valid exactly when the chain is and the anchored hash is where the anchor says; a shorter chain is a rollback |
| Audit.AppendKeepsValid | V3.6/watchtower-v3_6/src/audit.rs:222-284 | every append to a valid chain adds one event at its end and leaves it valid |
| Audit.AppendSucceedsIff | V3.6/watchtower-v3_6/src/audit.rs:222-284 | a valid chain takes an event if and only if its count and the time are in range and no stored event has the new hash |
| Audit.AnchorPreimageInjective | V3.6/watchtower-v3_6/src/audit.rs:117-159 | the string an anchor's id hashes determines its count, head and time |
| Audit.EqualHeadsEqualChains | V3.6/watchtower-v3_6/src/audit.rs:286-308 | two valid chains with one head are the same chain, unless two events collide |
| Audit.AnchorPersistsIff | V3.6/watchtower-v3_6/src/audit.rs:191-220 | an anchor stays valid under all later appends if and only if it anchored at least one event, or nothing was appended |
| Audit.AnchorPinsPrefix | V3.6/watchtower-v3_6/src/audit.rs:191-220 | a passing check means the chain begins with exactly the anchored events, unless two events collide |
| Authorization.RunOk | V3.6/watchtower-v3_6/src/authorization.rs:64-180 | over every run: at most one active authorization and one receipt per manifest, all nonces different, receipts for exactly the consumed authorizations, counts equal to the audit's |
| Authorization.RunContinues | V3.6/watchtower-v3_6/src/authorization.rs:453-476 | no inactive authorization revives, no row changes what it grants, and no receipt is lost or changed |
| Authorization.ReceiptRulesOutActivity | V3.6/watchtower-v3_6/src/authorization.rs:78-85 | once a manifest has a receipt, none of its authorizations is active in any continuation |
| Authorization.SubmissionIsIdempotent | V3.6/watchtower-v3_6/src/authorization.rs:267-286 | repeating a recorded submission returns its receipt and changes nothing; only a time no column can hold is refused first |
| Authorization.SubmissionRecords | V3.6/watchtower-v3_6/src/authorization.rs:267-376 | a submission that succeeds, for the first time or again, leaves exactly its receipt for the manifest, with the id and nonce submitted |
| AuthorizationGrounds.IssueSucceedsIff | V3.6/watchtower-v3_6/src/authorization.rs:64-180 | an issue succeeds if and only if the manifest is verified, unexpired and without a receipt, the recheck is verified with its very target, both approvals of its preparation stand in its set, the preparation equals it field by field, and the authorization is there and active, or new, in range and taken by the audit chain |
| AuthorizationGrounds.EveryRowIsGrounded | V3.6/watchtower-v3_6/src/authorization.rs:92-137 | over every run each authorization was issued by one event on evidence that held in every field, for a manifest without a receipt, with that manifest's whole target, its own time, and an end at most five seconds on and not after the manifest's |
| AuthorizationGrounds.IssueTouches | V3.6/watchtower-v3_6/src/authorization.rs:139-151 | an issue changes no other authorization but active ones of its own manifest, to superseded, and the one under its own id, to expired when its time has come |
| AuthorizationGrounds.SubmissionSucceedsIff | V3.6/watchtower-v3_6/src/authorization.rs:267-376 | a submission succeeds if and only if it was recorded before, or its authorization is active and has not run out, no receipt has its manifest or nonce, the manifest found is verified for the same bundle, and receipt and audit event are new |
| AuthorizationGrounds.ReceiptIsGrounded | V3.6/watchtower-v3_6/src/authorization.rs:267-376 | over every run a receipt was recorded by one submission, under a manifest still verified for the same bundle, of an authorization an earlier event issued on evidence that held: before it ran out, and not before it was issued unless the clock ran back |
| AuthorizationGrounds.ConsumedRowSays | V3.6/watchtower-v3_6/src/authorization.rs:321-334 | in every reachable store a receipt's authorization is marked consumed once, at the receipt's own time |
| AuthorizationGrounds.FailedSubmissionLeaves | V3.6/watchtower-v3_6/src/authorization.rs:267-334 | a submission that fails expires its authorization if its time has come, withdraws it exactly when it could be submitted but for a manifest that changed, and otherwise changes nothing |
| AuthorizationGrounds.WithdrawalTouches | V3.6/watchtower-v3_6/src/authorization.rs:453-476 | a withdrawal gives its status to exactly the active authorizations that name the value in its column |
| Authorization.RunFiled | V3.6/watchtower-v3_6/src/authorization.rs:479-490 | in every reachable store a row is filed under the hash of its own manifest, recheck, bundle, approvals and times |
| Authorization.IssuedIsActive | V3.6/watchtower-v3_6/src/authorization.rs:105-137 | after any run, what an issue returns is active, the asked manifest's own, issued now, and expires within five seconds and not after the manifest, unless two id strings collide |
| Authorization.AuthorizationStore.IssueExecutionAuthorization | V3.6/watchtower-v3_6/src/authorization.rs:64-180 | checks, expires, supersedes, inserts and records as specified; its transaction is all or nothing |
| Authorization.AuthorizationStore.SimulateExecutionSubmission | V3.6/watchtower-v3_6/src/authorization.rs:267-376 | expires, refuses or returns the earlier receipt, withdraws on a changed manifest, or consumes exactly once |
| Authorization.AuthorizationStore.ExecutionAuthorization | V3.6/watchtower-v3_6/src/authorization.rs:182-197 | refuses a time no column can hold, expires an active authorization whose time has come, and returns the row |
| Authorization.AuthorizationStore.InvalidateExecutionAuthorizations | V3.6/watchtower-v3_6/src/authorization.rs:453-476 | refuses a time no column can hold, and otherwise changes the status of exactly the active rows in the column's class |
| Custody.ReadyIffQuorum | V3.6/watchtower-v3_6/src/custody.rs:277-330 | production is ready if and only if the merchant confirmed and threshold-many stored attestations of these hashes exist, pairwise distinct in key and in failure domain |
| Custody.QuorumIsSigned | V3.6/watchtower-v3_6/src/custody.rs:207-275 | every attestation of a quorum is of a registered attester and its signature verifies |
| Custody.ReadinessIsMonotoneIff | V3.6/watchtower-v3_6/src/custody.rs:277-330 | recording more attestations keeps a production greenlight on if and only if the distinct keys still fit 16 bits; with more keys the status call fails |
| CustodyCrowd.CrowdExample | V3.6/watchtower-v3_6/src/custody.rs:277-330 | a run in which 65536 attesters register and attest one entry: with all but the last the greenlight is on, with the last its status is an error |
| Custody.ProductionImpliesTest | V3.6/watchtower-v3_6/src/custody.rs:332-383 | production readiness implies test readiness at the same threshold |
| Custody.RunKeeps | V3.6/watchtower-v3_6/src/custody.rs:120-160 | every run keeps attester keys distinct and rows signed by their registered attester, and only adds |
| Custody.KeyTakenIff | V3.6/watchtower-v3_6/src/custody.rs:107-113 | the unique key column never refuses a row that the primary key would take |
| CustodyRecords.ExpectedIff | V3.6/watchtower-v3_6/src/custody.rs:162-182 | there is something to attest if and only if a valid package with the entry is stored and its merchant confirmed just that; it is then the hashes of that checkpoint, package, authorization and confirmation |
| CustodyRecords.AttestationLayout | V3.6/watchtower-v3_6/src/custody.rs:26-43 | the 178 bytes of an attestation hold each field at its offset |
| CustodyRecords.RegisterSucceedsIff | V3.6/watchtower-v3_6/src/custody.rs:120-160 | an attester is registered if and only if its names and key are good and no one else has its key, nor it another key or domain |
| CustodyRecords.RecordSucceedsIff | V3.6/watchtower-v3_6/src/custody.rs:207-275 | an attestation is recorded if and only if its registered attester signed exactly what is to be attested, its numbers fit, and it repeats its own row or makes a first one |
| CustodyRecords.GreenlightsSay | V3.6/watchtower-v3_6/src/custody.rs:277-383 | both greenlights report the merchant, the threshold and the two distinct counts, and are on exactly when the merchant confirmed and the keys, and for production the failure domains too, reach a threshold of one to three |
| Custody.CustodyStore.RegisterCustodyAttester | V3.6/watchtower-v3_6/src/custody.rs:120-160 | registers an attester, accepts the same one again, and refuses any conflict |
| Custody.CustodyStore.RecordCustodyAttestation | V3.6/watchtower-v3_6/src/custody.rs:207-275 | stores a checked attestation once, accepts it again, and refuses a different one of the same attester |
| Approval.StatementRoundTrip | V3.6/watchtower-v3_6/src/approval.rs:97-118 | a statement with valid names decodes from its canonical bytes |
| Approval.StatementCanonical | V3.6/watchtower-v3_6/src/approval.rs:124-170 | bytes that decode are the canonical bytes of the statement |
| Approval.StatementFromCanonicalBytes | V3.6/watchtower-v3_6/src/approval.rs:124-170 | the offset-advancing decoder accepts exactly the canonical bytes of a statement |
| Approval.StatusIsExact | V3.6/watchtower-v3_6/src/approval.rs:353-405 | the reported status is exactly none, one or two active unexpired approvals, unless the chain changed |
| Approval.RunOk | V3.6/watchtower-v3_6/src/approval.rs:206-351 | in every reachable store a preparation has at most two active approvals, of different approvers and failure domains |
| Approval.ActiveApproversDiffer | V3.6/watchtower-v3_6/src/approval.rs:286-314 | two different active approvals of a preparation differ in approver and in failure domain, and are then all there are |
| ApprovalCredentials.SubmitAddsIff | V3.6/watchtower-v3_6/src/approval.rs:206-351 | a submission adds its approval if and only if its own key signed the statement, which approves, is current and repeats the stored unchanged preparation and its id; approver, key and nonce are new to it; and at most one other, of another failure domain, still counts |
| ApprovalCredentials.SubmitSucceedsIff | V3.6/watchtower-v3_6/src/approval.rs:206-351 | a submission succeeds if and only if credential, time and binding are good and its approver submitted the very same approval before or is admitted now; past those checks it marks the preparation's approvals whose time has come, and before them it changes nothing |
| ApprovalCredentials.StoredIsAdmitted | V3.6/watchtower-v3_6/src/approval.rs:211-238 | over every run each stored approval was admitted by one submission: signed under its own key over its canonical bytes, current then, and bound to the preparation stored then |
| ApprovalCredentials.OnePreparation | V3.6/watchtower-v3_6/src/approval.rs:189-203 | an id names one preparation, its subject and when it was prepared, unless two hashed strings collide |
| ApprovalCredentials.DualMeansTwoSigned | V3.6/watchtower-v3_6/src/approval.rs:353-382 | after any run a dual verdict means two stored approvals of exactly this preparation, active, unexpired and each signed under its own key, of different approvers, failure domains and keys, with the chain unchanged |
| ApprovalCredentials.ReadTouches | V3.6/watchtower-v3_6/src/approval.rs:353-420 | reading a status expires exactly that preparation's active approvals whose time has come and sets its status to the verdict's, and changes nothing else |
| ApprovalCredentials.ChangeRevokes | V3.6/watchtower-v3_6/src/approval.rs:422-463 | a new preparation or a chain change revokes exactly the active approvals about the closing coins it is of |
| Approval.NeverCountsAgain | V3.6/watchtower-v3_6/src/approval.rs:407-463 | an expired or revoked approval never changes again, whatever happens later |
| Approval.FundingChangeStopsIff | V3.6/watchtower-v3_6/src/preparation.rs:345-371 | a change of the funding coin's chain view stops a preparation if and only if its stored status is one of the three the update names |
| Approval.ReadingHidesFromFundingChange | V3.6/watchtower-v3_6/src/approval.rs:383-396 | of two runs that end in the same chain change, the one that reads the fresh preparation's status first leaves it unstopped, the other stops it |
| Approval.ApprovalStore.ApprovalStatus | V3.6/watchtower-v3_6/src/approval.rs:353-405 | expires, counts and records the verdict on the preparation as specified |
| Approval.ApprovalStore.SubmitChallengeApproval | V3.6/watchtower-v3_6/src/approval.rs:206-351 | checks credential and binding, expires, and inserts, returns or refuses as specified |

## Left out

- HTTP routers, tokens, hex and JSON, command lines, RPC clients, transport, delivery bookkeeping, the wallet draft store and `reconcile_snapshots`: plumbing, or only easy members.
- SQLite itself: its keys, unique columns, checks and transaction atomicity are kept, its storage and locking are not.
- Timestamps, reasons and other columns nothing reads back are not stored in the HUB's rows; `HubStore.PendingRows` lists the prepared rows in any order, and recovery is proved for every order.
- The chain lookup of `register_channel_from_chain`: `HubSteps.Register` takes the birth height, chain state and peak it arrives at.
- `reservation_status`: a lookup of a completed row is the machine's `Lookup` call; the answer "pending" is not modelled.
- `load_channel` outside a transaction is one step here, two queries there; the second reads a state row, which never changes.
- Error texts, and which of two failing checks of one spend is reported first in `Closing`: a failed check of a spend is one kind of rejection there.
- Consensus rules on how an amount or height may be written (its length, its sign, leading zeros): it means its unsigned value. An opcode is its one byte.
- `Clvm.ReadConditions`: a condition whose opcode or argument is a pair is a failure here, a panic there.
- The serialized puzzle reveal and solution of a spend: it is modelled by its module and arguments.
- Costs of CLVM runs, and the finalization of a subsequent closing coin, which the Rust sources do not contain.
- The chialisp puzzles: only what the Rust checks force is proved.
- Merkle counts and indices above 32 bits: `Merkle.Build` rejects them, as the source does.
- Watchtower packages, merchant confirmations, rechecks and manifests enter `Custody` and `Authorization` as given records with a status; monitor, backup and bundle code is not modelled.
- The errors of the approval statement's decoder keep the protocol decoder's names; the source reports every one as corruption.
- The frozen V1/V2 prototype under `src/`.
