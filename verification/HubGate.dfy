/** The chain gate: how two chain snapshots decide whether a reservation may be signed, and what they do to the
    channel's recorded heights. */
module HubGate {
  import opened ByteStrings
  import opened Protocol
  import opened Types
  import opened HubRecords

  datatype Peak = Peak(height: u64, headerHash: Bytes32)

  datatype FundingCoin =
    | Missing
    | Confirmed(birthHeight: u64, puzzleHash: Bytes32, amount: u64)
    | Spent(birthHeight: u64, spentHeight: u64, puzzleHash: Bytes32, amount: u64)

  datatype ChainSnapshot = ChainSnapshot(networkId: Bytes32, synced: bool, peak: Option<Peak>, fundingCoin: FundingCoin)

  type ChainView = Result<ChainSnapshot, ChainProviderError>

  datatype Gate = Manual(height: u64) | Chain(initial: ChainView, committed: ChainView)

  datatype Gated = Gated(observedPeakHeight: u64, blocking: Option<ReservationStatus>)

  // ---------------------------------------------------------------- specification

  /** The row after one chain observation, or the range error that keeps it from being stored. */
  function Observe(row: ChannelRow, state: ChainState, activated: bool, birth: u64, cutoff: u64, close: u64,
                   peak: Option<Peak>): Result<ChannelRow, HubError>
  {
    var height := if peak.Some? then Some(peak.value.height) else row.lastPeakHeight;
    var hash := if peak.Some? then Some(peak.value.headerHash) else row.lastPeakHash;
    :- FitsColumn(birth);
    :- FitsColumn(cutoff);
    :- FitsColumn(close);
    :- if height.Some? then FitsColumn(height.value) else Pass;
    Success(row.(chainState := state, activated := activated, fundingBirthHeight := birth,
                 acceptanceCutoffHeight := cutoff, scheduledCloseHeight := close,
                 lastPeakHeight := height, lastPeakHash := hash))
  }

  /** What one stored observation leaves in each column. */
  predicate Stores(before: ChannelRow, after: ChannelRow, state: ChainState, activated: bool, birth: u64, cutoff: u64,
                   close: u64, peak: Option<Peak>)
  {
    && after.chainState == state && after.activated == activated && after.fundingBirthHeight == birth
    && after.acceptanceCutoffHeight == cutoff && after.scheduledCloseHeight == close
    && (if peak.Some?
        then after.lastPeakHeight == Some(peak.value.height) && after.lastPeakHash == Some(peak.value.headerHash)
        else after.lastPeakHeight == before.lastPeakHeight && after.lastPeakHash == before.lastPeakHash)
  }

  function ObservedHeight(row: ChannelRow, peak: Option<Peak>): u64 {
    if peak.Some? then peak.value.height
    else if row.lastPeakHeight.Some? then row.lastPeakHeight.value
    else 0
  }

  /** A blocked gate records the peak and the reason, and leaves every height as it was. */
  function Blocked(row: ChannelRow, state: ChainState, status: ReservationStatus, peak: Option<Peak>)
    : Result<(ChannelRow, Gated), HubError>
  {
    var updated :- Observe(row, state, row.activated, row.fundingBirthHeight, row.acceptanceCutoffHeight,
                           row.scheduledCloseHeight, peak);
    Success((updated, Gated(ObservedHeight(row, peak), Some(status))))
  }

  function UnavailablePeak(initial: ChainView, committed: ChainView): Option<Peak> {
    if committed.Success? && committed.value.peak.Some? then committed.value.peak
    else if initial.Success? then initial.value.peak
    else None
  }

  predicate RpcIsDown(view: ChainView) {
    view.Failure? && view.error == ChainProviderError.RpcUnavailable
  }

  predicate PeakWentBack(row: ChannelRow, initial: Peak, committed: Peak) {
    || committed.height < initial.height
    || (committed.height == initial.height && committed.headerHash != initial.headerHash)
    || (row.lastPeakHeight.Some? && committed.height < row.lastPeakHeight.value)
    || (row.lastPeakHeight.Some? && committed.height == row.lastPeakHeight.value
        && row.lastPeakHash != Some(committed.headerHash))
  }

  predicate IsFundingCoin(row: ChannelRow, puzzleHash: Bytes32, amount: u64) {
    puzzleHash == row.fundingPuzzleHash && amount == row.terms.fundingAmount
  }

  predicate CoinMoved(row: ChannelRow, initial: FundingCoin, birth: u64) {
    || !initial.Confirmed?
    || !IsFundingCoin(row, initial.puzzleHash, initial.amount)
    || initial.birthHeight != birth
    || birth != row.fundingBirthHeight
  }

  function Min(a: u64, b: u64): u64 {
    if a < b then a else b
  }

  /** The gate for a funding coin both nodes report on and the committed snapshot shows unspent. */
  function EvaluateConfirmed(row: ChannelRow, initial: FundingCoin, birth: u64, wentBack: bool, peak: Peak)
    : Result<(ChannelRow, Gated), HubError>
  {
    var reorged := wentBack || CoinMoved(row, initial, birth);
    var newCutoff :- CheckedAddHeight(birth, row.terms.acceptanceBlocks, "acceptance_cutoff_height");
    var cutoff := if row.activated then Min(row.acceptanceCutoffHeight, newCutoff) else newCutoff;
    var close :- CheckedAddHeight(birth, row.terms.closeDelayBlocks, "scheduled_close_height");
    var activated := row.activated || ConfirmationDepth(peak.height, birth) >= row.confirmationBlocks;
    var decision :=
      if !activated then (Unconfirmed, Some(ChainStateUncertain))
      else if reorged then (ReorgPending, Some(ChannelReorgPending))
      else if peak.height >= cutoff then (Active, Some(RejectedFreezing))
      else (Active, None);
    var updated :- Observe(row, decision.0, activated, birth, cutoff, close, Some(peak));
    Success((updated, Gated(peak.height, decision.1)))
  }

  /** The gate for a funding coin the committed snapshot shows spent: new birth and close, old cutoff. */
  function EvaluateSpent(row: ChannelRow, birth: u64, peak: Peak): Result<(ChannelRow, Gated), HubError> {
    var close :- CheckedAddHeight(birth, row.terms.closeDelayBlocks, "scheduled_close_height");
    var updated :- Observe(row, Closing, row.activated, birth, row.acceptanceCutoffHeight, close, Some(peak));
    Success((updated, Gated(peak.height, Some(ChannelClosing))))
  }

  /** The gate when both snapshots and both peaks were obtained. */
  function EvaluatePeaks(row: ChannelRow, initial: ChainSnapshot, committed: ChainSnapshot, first: Peak, peak: Peak)
    : Result<(ChannelRow, Gated), HubError>
  {
    if initial.networkId != row.terms.networkId || committed.networkId != row.terms.networkId then
      Blocked(row, ChainStateUncertainState, ChainStateUncertain, Some(peak))
    else if !initial.synced || !committed.synced then
      Blocked(row, NodeNotSyncedState, NodeNotSynced, Some(peak))
    else
      match committed.fundingCoin
      case Missing =>
        if row.activated then Blocked(row, ReorgPending, ChannelReorgPending, Some(peak))
        else Blocked(row, ChainStateUncertainState, ChainStateUncertain, Some(peak))
      case Spent(birth, _, puzzleHash, amount) =>
        if !IsFundingCoin(row, puzzleHash, amount) then
          Blocked(row, ChainStateUncertainState, ChainStateUncertain, Some(peak))
        else EvaluateSpent(row, birth, peak)
      case Confirmed(birth, puzzleHash, amount) =>
        if !IsFundingCoin(row, puzzleHash, amount) then
          Blocked(row, ChainStateUncertainState, ChainStateUncertain, Some(peak))
        else EvaluateConfirmed(row, initial.fundingCoin, birth, PeakWentBack(row, first, peak), peak)
  }

  function EvaluateChain(row: ChannelRow, initial: ChainView, committed: ChainView)
    : Result<(ChannelRow, Gated), HubError>
  {
    if initial.Failure? || committed.Failure? then
      if RpcIsDown(initial) || RpcIsDown(committed) then
        Blocked(row, RpcUnavailableState, ReservationStatus.RpcUnavailable, UnavailablePeak(initial, committed))
      else
        Blocked(row, ChainStateUncertainState, ChainStateUncertain, UnavailablePeak(initial, committed))
    else if committed.value.peak.None? then
      Blocked(row, ChainStateUncertainState, ChainStateUncertain, None)
    else if initial.value.peak.None? then
      Blocked(row, ChainStateUncertainState, ChainStateUncertain, committed.value.peak)
    else
      EvaluatePeaks(row, initial.value, committed.value, initial.value.peak.value, committed.value.peak.value)
  }

  /** A manually gated reservation only looks at the height it was given. */
  function EvaluateManual(row: ChannelRow, height: u64): Result<(ChannelRow, Gated), HubError> {
    var valid := CheckedHeight("observed_peak_height", height);
    :- valid;
    Success((row, Gated(height, if height >= row.acceptanceCutoffHeight then Some(RejectedFreezing) else None)))
  }

  function EvaluateGate(row: ChannelRow, gate: Gate): Result<(ChannelRow, Gated), HubError> {
    match gate
    case Manual(height) => EvaluateManual(row, height)
    case Chain(initial, committed) => EvaluateChain(row, initial, committed)
  }

  // ---------------------------------------------------------------- the gate as the program runs it

  /** The channel record a transaction works on; each observation updates it in place. */
  class ChannelRecord {
    var row: ChannelRow

    constructor (row: ChannelRow)
      ensures this.row == row
    {
      this.row := row;
    }

    method PersistObservation(state: ChainState, activated: bool, birth: u64, cutoff: u64, close: u64,
                              peak: Option<Peak>) returns (r: Verdict)
      modifies this
      ensures r.Fail? ==>
                row == old(row) && Observe(old(row), state, activated, birth, cutoff, close, peak) == Failure(r.error)
      ensures r.Pass? ==> Observe(old(row), state, activated, birth, cutoff, close, peak) == Success(row)
      ensures r.Pass? ==> Stores(old(row), row, state, activated, birth, cutoff, close, peak)
    {
      var height := row.lastPeakHeight;
      var hash := row.lastPeakHash;
      if peak.Some? {
        height, hash := Some(peak.value.height), Some(peak.value.headerHash);
      }
      if birth > MAX_PROTOCOL_U64 || cutoff > MAX_PROTOCOL_U64 || close > MAX_PROTOCOL_U64
         || (height.Some? && height.value > MAX_PROTOCOL_U64) {
        return Fail(ProtocolFailure(IntegerRange("sqlite u64")));
      }
      row := row.(fundingBirthHeight := birth, acceptanceCutoffHeight := cutoff, scheduledCloseHeight := close);
      row := row.(chainState := state, activated := activated);
      row := row.(lastPeakHeight := height, lastPeakHash := hash);
      return Pass;
    }

    method PersistBlocked(state: ChainState, status: ReservationStatus, peak: Option<Peak>)
      returns (r: Result<Gated, HubError>)
      modifies this
      ensures Evaluated(r, old(row), row, Blocked(old(row), state, status, peak))
    {
      var stored := PersistObservation(state, row.activated, row.fundingBirthHeight, row.acceptanceCutoffHeight,
                                       row.scheduledCloseHeight, peak);
      if stored.Fail? {
        return Failure(stored.error);
      }
      BlockedIs(old(row), row, state, status, peak);
      return Success(Gated(ObservedHeight(row, peak), Some(status)));
    }

    method EvaluateConfirmedCoin(initial: FundingCoin, birth: u64, wentBack: bool, peak: Peak)
      returns (r: Result<Gated, HubError>)
      modifies this
      ensures Evaluated(r, old(row), row, EvaluateConfirmed(old(row), initial, birth, wentBack, peak))
    {
      var reorged := wentBack;
      if initial.Confirmed? {
        if !IsFundingCoin(row, initial.puzzleHash, initial.amount) || initial.birthHeight != birth {
          reorged := true;
        }
      } else {
        reorged := true;
      }
      if birth != row.fundingBirthHeight {
        reorged := true;
      }
      var newCutoff :- CheckedAddHeight(birth, row.terms.acceptanceBlocks, "acceptance_cutoff_height");
      var cutoff := newCutoff;
      if row.activated {
        cutoff := Min(row.acceptanceCutoffHeight, newCutoff);
      }
      var close :- CheckedAddHeight(birth, row.terms.closeDelayBlocks, "scheduled_close_height");
      var activated := row.activated || ConfirmationDepth(peak.height, birth) >= row.confirmationBlocks;
      var state := Active;
      var blocking := None;
      if !activated {
        state, blocking := Unconfirmed, Some(ChainStateUncertain);
      } else if reorged {
        state, blocking := ReorgPending, Some(ChannelReorgPending);
      } else if peak.height >= cutoff {
        blocking := Some(RejectedFreezing);
      }
      var stored := PersistObservation(state, activated, birth, cutoff, close, Some(peak));
      if stored.Fail? {
        return Failure(stored.error);
      }
      return Success(Gated(peak.height, blocking));
    }

    method EvaluateSpentCoin(birth: u64, peak: Peak) returns (r: Result<Gated, HubError>)
      modifies this
      ensures Evaluated(r, old(row), row, EvaluateSpent(old(row), birth, peak))
    {
      var close :- CheckedAddHeight(birth, row.terms.closeDelayBlocks, "scheduled_close_height");
      var stored := PersistObservation(Closing, row.activated, birth, row.acceptanceCutoffHeight, close, Some(peak));
      if stored.Fail? {
        return Failure(stored.error);
      }
      return Success(Gated(peak.height, Some(ChannelClosing)));
    }

    method EvaluateSnapshots(initial: ChainView, committed: ChainView) returns (r: Result<Gated, HubError>)
      modifies this
      ensures Evaluated(r, old(row), row, EvaluateChain(old(row), initial, committed))
    {
      if initial.Failure? || committed.Failure? {
        var observed := UnavailablePeak(initial, committed);
        if RpcIsDown(initial) || RpcIsDown(committed) {
          r := PersistBlocked(RpcUnavailableState, ReservationStatus.RpcUnavailable, observed);
        } else {
          r := PersistBlocked(ChainStateUncertainState, ChainStateUncertain, observed);
        }
        return;
      }
      if committed.value.peak.None? {
        r := PersistBlocked(ChainStateUncertainState, ChainStateUncertain, None);
        return;
      }
      if initial.value.peak.None? {
        r := PersistBlocked(ChainStateUncertainState, ChainStateUncertain, committed.value.peak);
        return;
      }
      r := EvaluateBothPeaks(initial.value, committed.value, initial.value.peak.value, committed.value.peak.value);
    }

    method EvaluateBothPeaks(initial: ChainSnapshot, committed: ChainSnapshot, first: Peak, peak: Peak)
      returns (r: Result<Gated, HubError>)
      modifies this
      ensures Evaluated(r, old(row), row, EvaluatePeaks(old(row), initial, committed, first, peak))
    {
      if initial.networkId != row.terms.networkId || committed.networkId != row.terms.networkId {
        r := PersistBlocked(ChainStateUncertainState, ChainStateUncertain, Some(peak));
        return;
      }
      if !initial.synced || !committed.synced {
        r := PersistBlocked(NodeNotSyncedState, NodeNotSynced, Some(peak));
        return;
      }
      var wentBack := PeakWentBack(row, first, peak);
      var coin := committed.fundingCoin;
      if coin.Missing? {
        if row.activated {
          r := PersistBlocked(ReorgPending, ChannelReorgPending, Some(peak));
        } else {
          r := PersistBlocked(ChainStateUncertainState, ChainStateUncertain, Some(peak));
        }
      } else if !IsFundingCoin(row, coin.puzzleHash, coin.amount) {
        r := PersistBlocked(ChainStateUncertainState, ChainStateUncertain, Some(peak));
      } else if coin.Spent? {
        r := EvaluateSpentCoin(coin.birthHeight, peak);
      } else {
        r := EvaluateConfirmedCoin(initial.fundingCoin, coin.birthHeight, wentBack, peak);
      }
    }
  }

  /** A gate method's answer and the record it left, against the specification. */
  /** The gate's function, computed in place: its row and verdict, or its error and nothing stored. */
  ghost predicate Evaluated(r: Result<Gated, HubError>, before: ChannelRow, row: ChannelRow,
                            spec: Result<(ChannelRow, Gated), HubError>)
  {
    match r
    case Success(gated) => spec == Success((row, gated))
    case Failure(error) => spec == Failure(error) && row == before
  }

  lemma BlockedIs(before: ChannelRow, after: ChannelRow, state: ChainState, status: ReservationStatus,
                  peak: Option<Peak>)
    requires Observe(before, state, before.activated, before.fundingBirthHeight, before.acceptanceCutoffHeight,
                     before.scheduledCloseHeight, peak) == Success(after)
    ensures Blocked(before, state, status, peak) == Success((after, Gated(ObservedHeight(after, peak), Some(status))))
  {
  }

  // ---------------------------------------------------------------- what the gate guarantees

  /** The part of a row that no gate may change. */
  predicate SameIdentity(a: ChannelRow, b: ChannelRow) {
    && a.terms == b.terms && a.termsHash == b.termsHash
    && a.fundingPuzzleReveal == b.fundingPuzzleReveal && a.fundingPuzzleHash == b.fundingPuzzleHash
    && a.confirmationBlocks == b.confirmationBlocks
    && a.latestSequence == b.latestSequence && a.latestCheckpointHash == b.latestCheckpointHash
  }

  /** Once activated a channel stays activated, and its cutoff never rises. */
  predicate CutoffKept(before: ChannelRow, after: ChannelRow) {
    before.activated ==> after.activated && after.acceptanceCutoffHeight <= before.acceptanceCutoffHeight
  }

  predicate SameHeights(a: ChannelRow, b: ChannelRow) {
    && a.activated == b.activated && a.fundingBirthHeight == b.fundingBirthHeight
    && a.acceptanceCutoffHeight == b.acceptanceCutoffHeight && a.scheduledCloseHeight == b.scheduledCloseHeight
  }

  /** Both snapshots were obtained, with peaks, from nodes on the channel's network. */
  predicate SnapshotsObtained(row: ChannelRow, gate: Gate) {
    && gate.Chain? && gate.initial.Success? && gate.committed.Success?
    && gate.initial.value.peak.Some? && gate.committed.value.peak.Some?
    && gate.initial.value.networkId == gate.committed.value.networkId == row.terms.networkId
  }

  /** And both nodes are synced. */
  predicate SnapshotsUsable(row: ChannelRow, gate: Gate) {
    SnapshotsObtained(row, gate) && gate.initial.value.synced && gate.committed.value.synced
  }

  /** The committed snapshot shows no funding coin at all. */
  predicate SeesNoCoin(row: ChannelRow, gate: Gate) {
    SnapshotsUsable(row, gate) && gate.committed.value.fundingCoin.Missing?
  }

  /** One of the snapshots could not be had because its node was unreachable. */
  predicate NodeUnreachable(gate: Gate) {
    && gate.Chain?
    && (gate.initial == Failure(ChainProviderError.RpcUnavailable)
        || gate.committed == Failure(ChainProviderError.RpcUnavailable))
  }

  /** The peak a gate obtains: the committed snapshot's; without that snapshot, the initial one's. */
  function SeenPeak(gate: Gate): Option<Peak> {
    match gate
    case Manual(_) => None
    case Chain(initial, committed) =>
      if committed.Success? then committed.value.peak else if initial.Success? then initial.value.peak else None
  }

  /** The committed snapshot shows this channel's coin spent. */
  predicate SeesSpend(row: ChannelRow, gate: Gate) {
    && SnapshotsUsable(row, gate)
    && gate.committed.value.fundingCoin.Spent?
    && IsFundingCoin(row, gate.committed.value.fundingCoin.puzzleHash, gate.committed.value.fundingCoin.amount)
  }

  /** The committed snapshot shows this channel's coin confirmed and unspent. */
  predicate SeesCoin(row: ChannelRow, gate: Gate) {
    && SnapshotsUsable(row, gate)
    && gate.committed.value.fundingCoin.Confirmed?
    && IsFundingCoin(row, gate.committed.value.fundingCoin.puzzleHash, gate.committed.value.fundingCoin.amount)
  }

  /** The only gates that move heights are the two that see the coin; a spend leaves the cutoff behind. */
  predicate HeightsAfter(row: ChannelRow, gate: Gate, after: ChannelRow) {
    if SeesSpend(row, gate) then
      && after.fundingBirthHeight == gate.committed.value.fundingCoin.birthHeight
      && after.acceptanceCutoffHeight == row.acceptanceCutoffHeight
      && after.scheduledCloseHeight == after.fundingBirthHeight + row.terms.closeDelayBlocks <= MAX_PROTOCOL_U64
      && after.activated == row.activated
    else if SeesCoin(row, gate) then
      && after.fundingBirthHeight == gate.committed.value.fundingCoin.birthHeight
      && after.fundingBirthHeight + row.terms.acceptanceBlocks <= MAX_PROTOCOL_U64
      && after.acceptanceCutoffHeight <= after.fundingBirthHeight + row.terms.acceptanceBlocks
      && (row.activated ==> after.acceptanceCutoffHeight <= row.acceptanceCutoffHeight)
      && (|| after.acceptanceCutoffHeight == after.fundingBirthHeight + row.terms.acceptanceBlocks
          || (row.activated && after.acceptanceCutoffHeight == row.acceptanceCutoffHeight))
      && after.scheduledCloseHeight == after.fundingBirthHeight + row.terms.closeDelayBlocks <= MAX_PROTOCOL_U64
      && (row.activated ==> after.activated)
    else SameHeights(row, after)
  }

  lemma BlockedKeepsHeights(row: ChannelRow, state: ChainState, status: ReservationStatus, peak: Option<Peak>)
    requires Blocked(row, state, status, peak).Success?
    ensures SameIdentity(row, Blocked(row, state, status, peak).value.0)
    ensures SameHeights(row, Blocked(row, state, status, peak).value.0)
  {
  }

  lemma CoinMovesHeights(row: ChannelRow, initial: FundingCoin, birth: u64, wentBack: bool, peak: Peak)
    requires EvaluateConfirmed(row, initial, birth, wentBack, peak).Success?
    ensures var after := EvaluateConfirmed(row, initial, birth, wentBack, peak).value.0;
            && SameIdentity(row, after) && after.fundingBirthHeight == birth
            && birth + row.terms.acceptanceBlocks <= MAX_PROTOCOL_U64
            && after.acceptanceCutoffHeight ==
               (if row.activated then Min(row.acceptanceCutoffHeight, birth + row.terms.acceptanceBlocks)
                else birth + row.terms.acceptanceBlocks)
            && after.scheduledCloseHeight == birth + row.terms.closeDelayBlocks <= MAX_PROTOCOL_U64
            && (row.activated ==> after.activated)
  {
  }

  lemma SpendMovesHeights(row: ChannelRow, birth: u64, peak: Peak)
    requires EvaluateSpent(row, birth, peak).Success?
    ensures var after := EvaluateSpent(row, birth, peak).value.0;
            && SameIdentity(row, after) && after.activated == row.activated && after.fundingBirthHeight == birth
            && after.acceptanceCutoffHeight == row.acceptanceCutoffHeight
            && after.scheduledCloseHeight == birth + row.terms.closeDelayBlocks <= MAX_PROTOCOL_U64
  {
  }

  /** What the gate runs, by what its snapshots show. */
  lemma GateDispatch(row: ChannelRow, gate: Gate)
    requires SnapshotsUsable(row, gate)
    ensures var committed, peak := gate.committed.value, gate.committed.value.peak.value;
            && (SeesSpend(row, gate) ==>
                  EvaluateGate(row, gate) == EvaluateSpent(row, committed.fundingCoin.birthHeight, peak))
            && (SeesCoin(row, gate) ==>
                  EvaluateGate(row, gate) ==
                  EvaluateConfirmed(row, gate.initial.value.fundingCoin, committed.fundingCoin.birthHeight,
                                    PeakWentBack(row, gate.initial.value.peak.value, peak), peak))
  {
  }

  /** A gate that does not see the coin blocks, for one of four reasons. */
  lemma OtherGatesBlock(row: ChannelRow, gate: Gate)
    returns (state: ChainState, status: ReservationStatus, peak: Option<Peak>)
    requires gate.Chain? && !SeesSpend(row, gate) && !SeesCoin(row, gate)
    ensures EvaluateGate(row, gate) == Blocked(row, state, status, peak) && peak == SeenPeak(gate)
    ensures status == ReservationStatus.RpcUnavailable && state == RpcUnavailableState <==> NodeUnreachable(gate)
    ensures status == NodeNotSynced && state == NodeNotSyncedState <==>
            SnapshotsObtained(row, gate) && !SnapshotsUsable(row, gate)
    ensures status == ChannelReorgPending && state == ReorgPending <==> SeesNoCoin(row, gate) && row.activated
    ensures status == ChainStateUncertain && state == ChainStateUncertainState <==>
            && !NodeUnreachable(gate)
            && (SnapshotsObtained(row, gate) ==> SnapshotsUsable(row, gate))
            && (SeesNoCoin(row, gate) ==> !row.activated)
  {
    var initial, committed := gate.initial, gate.committed;
    state, status := ChainStateUncertainState, ChainStateUncertain;
    if initial.Failure? || committed.Failure? {
      peak := UnavailablePeak(initial, committed);
      if RpcIsDown(initial) || RpcIsDown(committed) {
        state, status := RpcUnavailableState, ReservationStatus.RpcUnavailable;
      }
    } else {
      peak := if initial.value.peak.None? && committed.value.peak.None? then None else committed.value.peak;
      if committed.value.peak.Some? && initial.value.peak.Some?
         && initial.value.networkId == committed.value.networkId == row.terms.networkId {
        if !initial.value.synced || !committed.value.synced {
          state, status := NodeNotSyncedState, NodeNotSynced;
        } else if committed.value.fundingCoin.Missing? && row.activated {
          state, status := ReorgPending, ChannelReorgPending;
        }
      }
    }
  }

  lemma GateMovesHeights(row: ChannelRow, gate: Gate)
    requires EvaluateGate(row, gate).Success?
    ensures SameIdentity(row, EvaluateGate(row, gate).value.0)
            && HeightsAfter(row, gate, EvaluateGate(row, gate).value.0)
  {
    if SeesSpend(row, gate) {
      GateDispatch(row, gate);
      SpendMovesHeights(row, gate.committed.value.fundingCoin.birthHeight, gate.committed.value.peak.value);
    } else if SeesCoin(row, gate) {
      var peak := gate.committed.value.peak.value;
      GateDispatch(row, gate);
      CoinMovesHeights(row, gate.initial.value.fundingCoin, gate.committed.value.fundingCoin.birthHeight,
                       PeakWentBack(row, gate.initial.value.peak.value, peak), peak);
    } else if gate.Chain? {
      var state, status, peak := OtherGatesBlock(row, gate);
      BlockedKeepsHeights(row, state, status, peak);
    }
  }

  lemma GateKeepsCutoff(row: ChannelRow, gate: Gate)
    requires EvaluateGate(row, gate).Success?
    ensures SameIdentity(row, EvaluateGate(row, gate).value.0)
    ensures CutoffKept(row, EvaluateGate(row, gate).value.0)
  {
    GateMovesHeights(row, gate);
  }

  /** The statuses a gate can block with. */
  predicate ChainStatus(s: ReservationStatus) {
    s in {RejectedFreezing, ChannelClosing, NodeNotSynced, ReservationStatus.RpcUnavailable, ChainStateUncertain,
          ChannelReorgPending}
  }

  lemma GateStatuses(row: ChannelRow, gate: Gate)
    requires EvaluateGate(row, gate).Success? && EvaluateGate(row, gate).value.1.blocking.Some?
    ensures ChainStatus(EvaluateGate(row, gate).value.1.blocking.value)
  {
  }

  /** A later peak: higher, or the very same one. */
  predicate Follows(earlier: Peak, later: Peak) {
    earlier.height < later.height || earlier == later
  }

  /** The committed peak follows the initial one and the last one recorded. */
  predicate PeakHolds(row: ChannelRow, initial: Peak, committed: Peak) {
    && Follows(initial, committed)
    && (row.lastPeakHeight.Some? ==>
          || row.lastPeakHeight.value < committed.height
          || (row.lastPeakHeight, row.lastPeakHash) == (Some(committed.height), Some(committed.headerHash)))
  }

  /** The channel is activated, or the peak buries its coin under the confirmations asked for. */
  predicate DeepEnough(row: ChannelRow, birth: u64, peak: Peak) {
    || row.activated || row.confirmationBlocks == 0
    || (birth <= peak.height && birth + row.confirmationBlocks <= peak.height + 1)
  }

  /** Both nodes are synced on the right network and agree on an unmoved and unspent funding coin that is activated or
      deep enough; the peak has not gone back; and the freeze that the recorded heights put has not begun. */
  predicate ChainOpens(row: ChannelRow, initial: ChainView, committed: ChainView) {
    && initial.Success? && committed.Success?
    && initial.value.peak.Some? && committed.value.peak.Some?
    && initial.value.networkId == committed.value.networkId == row.terms.networkId
    && initial.value.synced && committed.value.synced
    && committed.value.fundingCoin ==
       Confirmed(row.fundingBirthHeight, row.fundingPuzzleHash, row.terms.fundingAmount)
    && initial.value.fundingCoin == committed.value.fundingCoin
    && PeakHolds(row, initial.value.peak.value, committed.value.peak.value)
    && DeepEnough(row, row.fundingBirthHeight, committed.value.peak.value)
    && row.fundingBirthHeight + row.terms.acceptanceBlocks <= MAX_PROTOCOL_U64
    && row.fundingBirthHeight + row.terms.closeDelayBlocks <= MAX_PROTOCOL_U64
    && committed.value.peak.value.height < row.fundingBirthHeight + row.terms.acceptanceBlocks
    && (row.activated ==> committed.value.peak.value.height < row.acceptanceCutoffHeight)
  }

  /** When the chain gate opens, from the recorded row and the two snapshots alone. */
  lemma ChainGateOpensIff(row: ChannelRow, initial: ChainView, committed: ChainView)
    ensures (EvaluateChain(row, initial, committed).Success?
             && EvaluateChain(row, initial, committed).value.1.blocking.None?) <==>
            ChainOpens(row, initial, committed)
  {
  }

  predicate GateOpens(row: ChannelRow, gate: Gate) {
    match gate
    case Manual(height) => height <= MAX_PROTOCOL_U64 && height < row.acceptanceCutoffHeight
    case Chain(initial, committed) => ChainOpens(row, initial, committed)
  }

  lemma GateOpensIff(row: ChannelRow, gate: Gate)
    ensures EvaluateGate(row, gate).Success? && EvaluateGate(row, gate).value.1.blocking.None? <==> GateOpens(row, gate)
  {
    if gate.Chain? {
      ChainGateOpensIff(row, gate.initial, gate.committed);
    }
  }

  /** The height bindings `load_channel` insists on. */
  predicate HeightsBind(row: ChannelRow) {
    && row.fundingBirthHeight + row.terms.acceptanceBlocks <= MAX_PROTOCOL_U64
    && row.scheduledCloseHeight == row.fundingBirthHeight + row.terms.closeDelayBlocks <= MAX_PROTOCOL_U64
    && (if row.activated
        then row.acceptanceCutoffHeight <= row.fundingBirthHeight + row.terms.acceptanceBlocks
        else row.acceptanceCutoffHeight == row.fundingBirthHeight + row.terms.acceptanceBlocks)
  }

  /** An open gate leaves room for the whole freeze before the recorded close, whichever gate it was. */
  lemma OpenGateIsBeforeFreeze(row: ChannelRow, gate: Gate)
    requires HeightsBind(row) && EvaluateGate(row, gate).Success?
    requires row.terms.closeDelayBlocks == row.terms.acceptanceBlocks + row.terms.freezeBlocks
    requires EvaluateGate(row, gate).value.1.blocking.None?
    ensures var (after, gated) := EvaluateGate(row, gate).value;
            && gated.observedPeakHeight < after.acceptanceCutoffHeight
            && gated.observedPeakHeight + row.terms.freezeBlocks < after.scheduledCloseHeight
            && (gate.Chain? ==> after.activated)
  {
  }

  /** An open gate's heights fit their columns. */
  lemma OpenHeightsFit(row: ChannelRow, gate: Gate)
    requires HeightsBind(row) && GateOpens(row, gate)
    ensures EvaluateGate(row, gate).Success?
    ensures var (after, gated) := EvaluateGate(row, gate).value;
            && gated.observedPeakHeight <= MAX_PROTOCOL_U64
            && after.acceptanceCutoffHeight <= MAX_PROTOCOL_U64 && after.scheduledCloseHeight <= MAX_PROTOCOL_U64
  {
    GateOpensIff(row, gate);
    GateMovesHeights(row, gate);
  }

  /** Every gate keeps a channel loadable except one: a spend seen at a birth height that puts the old cutoff past
      the new one (or, before activation, at any other birth height). */
  lemma GateKeepsHeightsIff(row: ChannelRow, gate: Gate)
    requires HeightsBind(row) && EvaluateGate(row, gate).Success?
    requires row.terms.closeDelayBlocks == row.terms.acceptanceBlocks + row.terms.freezeBlocks
    ensures HeightsBind(EvaluateGate(row, gate).value.0) <==>
            (SeesSpend(row, gate) ==>
               var birth := gate.committed.value.fundingCoin.birthHeight;
               if row.activated then row.acceptanceCutoffHeight <= birth + row.terms.acceptanceBlocks
               else birth == row.fundingBirthHeight)
  {
    GateMovesHeights(row, gate);
  }
}
