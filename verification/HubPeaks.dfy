/** What the chain gate records and answers: the peak it saw, the reason it blocks, and that no gate opens behind the
    peak recorded last. */
module HubPeaks {
  import opened ByteStrings
  import opened Protocol
  import opened Types
  import opened HubRecords
  import opened HubGate
  import opened HubSteps
  import opened HubInvariant
  import opened HubMachine
  import opened HubTheorems
  import opened HubTrace

  // ---------------------------------------------------------------- what a gate records

  function AsLast(peak: Peak): (Option<u64>, Option<Bytes32>) {
    (Some(peak.height), Some(peak.headerHash))
  }

  /** The last peak known once this one, if any, has been seen. */
  function LastAfter(row: ChannelRow, seen: Option<Peak>): (Option<u64>, Option<Bytes32>) {
    if seen.Some? then AsLast(seen.value) else LastPeak(row)
  }

  /** The height a gate observes: the given one, the peak it obtained, or the last one known. */
  function HeightOf(row: ChannelRow, gate: Gate): u64 {
    if gate.Manual? then gate.height
    else if SeenPeak(gate).Some? then SeenPeak(gate).value.height
    else if row.lastPeakHeight.Some? then row.lastPeakHeight.value
    else 0
  }

  lemma BlockedRecords(row: ChannelRow, state: ChainState, status: ReservationStatus, peak: Option<Peak>)
    requires Blocked(row, state, status, peak).Success?
    ensures var (after, gated) := Blocked(row, state, status, peak).value;
            && LastPeak(after) == LastAfter(row, peak) && after.chainState == state
            && gated == Gated(if peak.Some? then peak.value.height
                              else if row.lastPeakHeight.Some? then row.lastPeakHeight.value else 0, Some(status))
  {
  }

  lemma SpendRecords(row: ChannelRow, birth: u64, peak: Peak)
    requires EvaluateSpent(row, birth, peak).Success?
    ensures var (after, gated) := EvaluateSpent(row, birth, peak).value;
            && LastPeak(after) == AsLast(peak) && after.chainState == Closing
            && gated == Gated(peak.height, Some(ChannelClosing))
  {
  }

  /** The coin where the recorded row has it, in both snapshots. */
  predicate CoinHolds(row: ChannelRow, initial: FundingCoin, birth: u64) {
    initial == Confirmed(birth, row.fundingPuzzleHash, row.terms.fundingAmount) && birth == row.fundingBirthHeight
  }

  predicate BeforeFreeze(row: ChannelRow, birth: u64, peak: Peak) {
    peak.height < birth + row.terms.acceptanceBlocks && (row.activated ==> peak.height < row.acceptanceCutoffHeight)
  }

  lemma CoinRecords(row: ChannelRow, initial: FundingCoin, birth: u64, first: Peak, peak: Peak)
    requires EvaluateConfirmed(row, initial, birth, PeakWentBack(row, first, peak), peak).Success?
    ensures var (after, gated) := EvaluateConfirmed(row, initial, birth, PeakWentBack(row, first, peak), peak).value;
            && LastPeak(after) == AsLast(peak) && after.activated == DeepEnough(row, birth, peak)
            && gated.observedPeakHeight == peak.height
            && (after.chainState, gated.blocking) ==
               if !DeepEnough(row, birth, peak) then (Unconfirmed, Some(ChainStateUncertain))
               else if !(CoinHolds(row, initial, birth) && PeakHolds(row, first, peak)) then
                 (ReorgPending, Some(ChannelReorgPending))
               else (Active, if BeforeFreeze(row, birth, peak) then None else Some(RejectedFreezing))
  {
  }

  /** A gate that succeeds records the peak it obtained, and keeps the last one known when it obtained none. A manual
      gate changes nothing. */
  lemma GateRecordsPeak(row: ChannelRow, gate: Gate)
    requires EvaluateGate(row, gate).Success?
    ensures var (after, gated) := EvaluateGate(row, gate).value;
            && LastPeak(after) == LastAfter(row, SeenPeak(gate))
            && gated.observedPeakHeight == HeightOf(row, gate)
            && (gate.Manual? ==> after == row)
  {
    if SeesSpend(row, gate) {
      GateDispatch(row, gate);
      SpendRecords(row, gate.committed.value.fundingCoin.birthHeight, gate.committed.value.peak.value);
    } else if SeesCoin(row, gate) {
      GateDispatch(row, gate);
      CoinRecords(row, gate.initial.value.fundingCoin, gate.committed.value.fundingCoin.birthHeight,
                  gate.initial.value.peak.value, gate.committed.value.peak.value);
    } else if gate.Chain? {
      var state, status, peak := OtherGatesBlock(row, gate);
      BlockedRecords(row, state, status, peak);
    }
  }

  // ---------------------------------------------------------------- when a gate succeeds

  predicate Fits(height: u64) {
    height <= MAX_PROTOCOL_U64
  }

  /** The heights a gate has to store fit their columns. */
  predicate StoredHeightsFit(row: ChannelRow, gate: Gate) {
    if gate.Manual? then Fits(gate.height)
    else if SeesSpend(row, gate) then
      && Fits(gate.committed.value.peak.value.height) && Fits(row.acceptanceCutoffHeight)
      && gate.committed.value.fundingCoin.birthHeight + row.terms.closeDelayBlocks <= MAX_PROTOCOL_U64
    else if SeesCoin(row, gate) then
      && Fits(gate.committed.value.peak.value.height)
      && gate.committed.value.fundingCoin.birthHeight + row.terms.closeDelayBlocks <= MAX_PROTOCOL_U64
      && gate.committed.value.fundingCoin.birthHeight + row.terms.acceptanceBlocks <= MAX_PROTOCOL_U64
    else
      && Fits(HeightOf(row, gate))
      && Fits(row.fundingBirthHeight) && Fits(row.acceptanceCutoffHeight) && Fits(row.scheduledCloseHeight)
  }

  lemma BlockedFits(row: ChannelRow, state: ChainState, status: ReservationStatus, peak: Option<Peak>)
    ensures Blocked(row, state, status, peak).Success? <==>
            && Fits(row.fundingBirthHeight) && Fits(row.acceptanceCutoffHeight) && Fits(row.scheduledCloseHeight)
            && (if peak.Some? then Fits(peak.value.height)
                else row.lastPeakHeight.Some? ==> Fits(row.lastPeakHeight.value))
  {
  }

  /** A gate fails only for a height that does not fit its column. */
  lemma GateSucceedsIff(row: ChannelRow, gate: Gate)
    ensures EvaluateGate(row, gate).Success? <==> StoredHeightsFit(row, gate)
  {
    if gate.Chain? {
      if SeesSpend(row, gate) || SeesCoin(row, gate) {
        GateDispatch(row, gate);
      } else {
        var state, status, peak := OtherGatesBlock(row, gate);
        BlockedFits(row, state, status, peak);
      }
    }
  }

  // ---------------------------------------------------------------- why a gate blocks

  /** Both nodes report the coin of this channel unspent, and it is activated or deep enough. */
  predicate SeesLiveCoin(row: ChannelRow, gate: Gate) {
    && SeesCoin(row, gate)
    && DeepEnough(row, gate.committed.value.fundingCoin.birthHeight, gate.committed.value.peak.value)
  }

  /** The coin and the peak are where they were. */
  predicate NothingMoved(row: ChannelRow, gate: Gate)
    requires SeesCoin(row, gate)
  {
    && CoinHolds(row, gate.initial.value.fundingCoin, gate.committed.value.fundingCoin.birthHeight)
    && PeakHolds(row, gate.initial.value.peak.value, gate.committed.value.peak.value)
  }

  predicate InTime(row: ChannelRow, gate: Gate)
    requires SeesCoin(row, gate)
  {
    BeforeFreeze(row, gate.committed.value.fundingCoin.birthHeight, gate.committed.value.peak.value)
  }

  /** What the snapshots must show for a chain gate to give this verdict. */
  predicate Warrants(row: ChannelRow, gate: Gate, verdict: Option<ReservationStatus>) {
    match verdict
    case None => SeesLiveCoin(row, gate) && NothingMoved(row, gate) && InTime(row, gate)
    case Some(RejectedFreezing) => SeesLiveCoin(row, gate) && NothingMoved(row, gate) && !InTime(row, gate)
    case Some(ChannelReorgPending) =>
      (SeesNoCoin(row, gate) && row.activated) || (SeesLiveCoin(row, gate) && !NothingMoved(row, gate))
    case Some(ChannelClosing) => SeesSpend(row, gate)
    case Some(NodeNotSynced) => SnapshotsObtained(row, gate) && !SnapshotsUsable(row, gate)
    case Some(RpcUnavailable) => NodeUnreachable(gate)
    case Some(ChainStateUncertain) =>
      && !NodeUnreachable(gate) && !SeesLiveCoin(row, gate) && !SeesSpend(row, gate)
      && (SnapshotsObtained(row, gate) ==> SnapshotsUsable(row, gate))
      && (SeesNoCoin(row, gate) ==> !row.activated)
    case _ => false
  }

  /** The state a verdict leaves the channel in. */
  predicate Leaves(row: ChannelRow, gate: Gate, verdict: Option<ReservationStatus>, state: ChainState) {
    match verdict
    case None => state == Active
    case Some(RejectedFreezing) => state == Active
    case Some(ChannelReorgPending) => state == ReorgPending
    case Some(ChannelClosing) => state == Closing
    case Some(NodeNotSynced) => state == NodeNotSyncedState
    case Some(RpcUnavailable) => state == RpcUnavailableState
    case _ => state == if SeesCoin(row, gate) then Unconfirmed else ChainStateUncertainState
  }

  lemma BlockedWarrants(row: ChannelRow, gate: Gate)
    requires gate.Chain? && EvaluateGate(row, gate).Success? && !SeesSpend(row, gate) && !SeesCoin(row, gate)
    ensures var (after, gated) := EvaluateGate(row, gate).value;
            Warrants(row, gate, gated.blocking) && Leaves(row, gate, gated.blocking, after.chainState)
  {
    var state, status, peak := OtherGatesBlock(row, gate);
    BlockedRecords(row, state, status, peak);
  }

  lemma CoinWarrants(row: ChannelRow, gate: Gate)
    requires EvaluateGate(row, gate).Success? && SeesCoin(row, gate)
    ensures var (after, gated) := EvaluateGate(row, gate).value;
            Warrants(row, gate, gated.blocking) && Leaves(row, gate, gated.blocking, after.chainState)
  {
    GateDispatch(row, gate);
    CoinRecords(row, gate.initial.value.fundingCoin, gate.committed.value.fundingCoin.birthHeight,
                gate.initial.value.peak.value, gate.committed.value.peak.value);
  }

  lemma OneVerdict(row: ChannelRow, gate: Gate, x: Option<ReservationStatus>, y: Option<ReservationStatus>)
    requires gate.Chain? && Warrants(row, gate, x) && Warrants(row, gate, y)
    ensures x == y
  {
  }

  /** A chain gate gives a verdict exactly when the snapshots and the recorded row warrant it, and leaves the channel in
      the state that goes with it. */
  lemma VerdictIsWarrantedIff(row: ChannelRow, gate: Gate, verdict: Option<ReservationStatus>)
    requires gate.Chain? && EvaluateGate(row, gate).Success?
    ensures var (after, gated) := EvaluateGate(row, gate).value;
            && (gated.blocking == verdict <==> Warrants(row, gate, verdict))
            && (gated.blocking == verdict ==> Leaves(row, gate, verdict, after.chainState))
            && (after.activated <==> row.activated || SeesLiveCoin(row, gate))
  {
    var (after, gated) := EvaluateGate(row, gate).value;
    GateMovesHeights(row, gate);
    if SeesCoin(row, gate) {
      CoinWarrants(row, gate);
    } else if !SeesSpend(row, gate) {
      BlockedWarrants(row, gate);
    }
    if Warrants(row, gate, verdict) {
      OneVerdict(row, gate, gated.blocking, verdict);
    }
  }

  // ---------------------------------------------------------------- the peak recorded last

  /** The peak an event records for a channel: the one it is registered with, or the one the gate of a reservation
      obtained when its row was written. */
  function Recorded(c: Crypto, w: World, event: Event, coin: Bytes32): Option<Peak> {
    if coin !in w.db && coin in Apply(c, w, event).db && event.Registers? then event.peak
    else if Prepares(c, w, event, coin) then SeenPeak(w.tasks[event.id].gate)
    else None
  }

  /** The last peak recorded in a run. */
  function LastRecorded(c: Crypto, events: seq<Event>, coin: Bytes32): Option<Peak> {
    if events == [] then None
    else
      var front := events[..|events| - 1];
      var recorded := Recorded(c, Run(c, front), events[|events| - 1], coin);
      if recorded.Some? then recorded else LastRecorded(c, front, coin)
  }

  function Columns(peak: Option<Peak>): (Option<u64>, Option<Bytes32>) {
    if peak.Some? then AsLast(peak.value) else (None, None)
  }

  lemma PreparationRecords(c: Crypto, w: World, event: Event, coin: Bytes32)
    requires WorldOk(c, w) && Prepares(c, w, event, coin)
    ensures coin in Apply(c, w, event).db
    ensures LastPeak(Apply(c, w, event).db[coin].row) ==
            LastAfter(w.db[coin].row, SeenPeak(w.tasks[event.id].gate))
  {
    var task := w.tasks[event.id];
    EventRecords(c, w, event, coin);
    FreshIsWritten(c, w.db, task.request, task.gate, task.key, task.now);
    GateRecordsPeak(w.db[coin].row, task.gate);
  }

  lemma NoChannelNoPeak(c: Crypto, events: seq<Event>, coin: Bytes32)
    requires coin !in Run(c, events).db
    ensures LastRecorded(c, events, coin) == None
  {
    if events != [] {
      var front := events[..|events| - 1];
      RunOk(c, front);
      ApplyContinues(c, Run(c, front), events[|events| - 1]);
      NoChannelNoPeak(c, front, coin);
    }
  }

  /** In every run a stored channel holds the peak recorded last, height and hash. */
  lemma {:induction false} StoredPeakIsLast(c: Crypto, events: seq<Event>, coin: Bytes32)
    requires coin in Run(c, events).db
    ensures LastPeak(Run(c, events).db[coin].row) == Columns(LastRecorded(c, events, coin))
  {
    var front, event := events[..|events| - 1], events[|events| - 1];
    var w := Run(c, front);
    RunOk(c, front);
    if coin !in w.db {
      NoChannelNoPeak(c, front, coin);
      NewChannelIsRegistered(c, w, event, coin);
    } else {
      StoredPeakIsLast(c, front, coin);
      if Prepares(c, w, event, coin) {
        PreparationRecords(c, w, event, coin);
      } else {
        EventRecords(c, w, event, coin);
      }
    }
  }

  /** In every run, no chain gate opens behind the peak recorded last: not at a lower height, and at its height only on
      the same block; nor behind the peak its own first snapshot shows. */
  lemma NoGateOpensBehind(c: Crypto, events: seq<Event>, coin: Bytes32, initial: ChainView, committed: ChainView)
    requires coin in Run(c, events).db
    requires var r := EvaluateGate(Run(c, events).db[coin].row, Chain(initial, committed));
             r.Success? && r.value.1.blocking.None?
    ensures initial.Success? && initial.value.peak.Some? && committed.Success? && committed.value.peak.Some?
    ensures var earlier, peak := LastRecorded(c, events, coin), committed.value.peak.value;
            && (earlier.Some? ==> earlier.value.height < peak.height || earlier.value == peak)
            && (initial.value.peak.value.height < peak.height || initial.value.peak.value == peak)
  {
    StoredPeakIsLast(c, events, coin);
    ChainGateOpensIff(Run(c, events).db[coin].row, initial, committed);
  }

  /** A coin or a peak that moved is reported once: the gate that reports it records what it saw, so the same snapshots
      open the next gate, exactly when they agree with each other and the freeze has not begun. */
  lemma MoveIsReportedOnceIff(row: ChannelRow, gate: Gate)
    requires SeesCoin(row, gate) && EvaluateGate(row, gate).Success?
    requires EvaluateGate(row, gate).value.1.blocking == Some(ChannelReorgPending)
    ensures GateOpens(EvaluateGate(row, gate).value.0, gate) <==>
            && gate.initial.value.fundingCoin == gate.committed.value.fundingCoin
            && Follows(gate.initial.value.peak.value, gate.committed.value.peak.value)
            && InTime(row, gate)
  {
    GateRecordsPeak(row, gate);
    GateMovesHeights(row, gate);
    VerdictIsWarrantedIff(row, gate, Some(ChannelReorgPending));
  }
}
