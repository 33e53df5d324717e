/** The execution audit: an append-only hash chain, its verification, and anchors of its head. */
module Audit {
  import opened ByteStrings
  import opened Protocol

  const EXECUTION_AUDIT_DOMAIN: Bytes := Ascii("XHUB_EXECUTION_AUDIT_V3_6")
  const EXECUTION_AUDIT_GENESIS_DOMAIN: Bytes := Ascii("XHUB_EXECUTION_AUDIT_GENESIS_V3_6")
  const EXECUTION_AUDIT_ANCHOR_DOMAIN: Bytes := Ascii("XHUB_EXECUTION_AUDIT_ANCHOR_V3_6")

  /** The bytes of a text column. */
  type Text = t: Bytes | |t| < 0x1_0000_0000_0000_0000

  datatype AuditError = Invalid(reason: string) | Corrupt(reason: string) | Database(reason: string) | AnchorConflict

  /** What an event says, apart from its place in the chain. */
  datatype Fact = Fact(eventType: Text, subject: Bytes32, binding: Bytes32, status: Text, occurredAt: u64)

  datatype Event = Event(index: u64, hash: Bytes32, previous: Bytes32, fact: Fact)

  /** The events in the order of their index, and the singleton head row. */
  datatype Log = Log(events: seq<Event>, count: u64, head: Bytes32)

  datatype Anchor = Anchor(id: Bytes32, count: u64, head: Bytes32, anchoredAt: u64)

  datatype AnchorCheck = AnchorCheck(valid: bool, rollbackDetected: bool)

  function GenesisPreimage(): Bytes {
    EXECUTION_AUDIT_GENESIS_DOMAIN + U16(PROTOCOL_VERSION)
  }

  function GenesisHash(c: Crypto): Bytes32 {
    c.sha256(GenesisPreimage())
  }

  function EventPreimage(index: u64, previous: Bytes32, f: Fact): Bytes {
    EXECUTION_AUDIT_DOMAIN + (U16(PROTOCOL_VERSION) + (U64(index) + (previous + (U64(|f.eventType|) + (f.eventType + (
    f.subject + (f.binding + (U64(|f.status|) + (f.status + U64(f.occurredAt))))))))))
  }

  function EventHash(c: Crypto, index: u64, previous: Bytes32, f: Fact): Bytes32 {
    c.sha256(EventPreimage(index, previous, f))
  }

  // ---------------------------------------------------------------- validity

  /** The hash event `i` must name as its predecessor. */
  function PreviousHash(c: Crypto, events: seq<Event>, i: nat): Bytes32
    requires i <= |events|
  {
    if i == 0 then GenesisHash(c) else events[i - 1].hash
  }

  ghost predicate Chained(c: Crypto, events: seq<Event>, i: nat)
    requires i < |events|
  {
    && events[i].index == i + 1
    && events[i].previous == PreviousHash(c, events, i)
    && events[i].hash == EventHash(c, events[i].index, events[i].previous, events[i].fact)
  }

  /** Events numbered from one without gaps, each hashed over the one before, ending at the recorded head. */
  ghost predicate ValidLog(c: Crypto, log: Log) {
    && (forall i {:trigger Chained(c, log.events, i)} :: 0 <= i < |log.events| ==> Chained(c, log.events, i))
    && log.count == |log.events|
    && log.head == PreviousHash(c, log.events, |log.events|)
  }

  // ---------------------------------------------------------------- appending

  function InsertEvent(events: seq<Event>, e: Event): seq<Event> {
    if events == [] || events[|events| - 1].index < e.index then events + [e]
    else InsertEvent(events[..|events| - 1], e) + [events[|events| - 1]]
  }

  /** The primary key and the unique hash column. */
  predicate EventFits(events: seq<Event>, e: Event) {
    forall i :: 0 <= i < |events| ==> events[i].index != e.index && events[i].hash != e.hash
  }

  function Append(c: Crypto, log: Log, f: Fact): Result<Log, AuditError> {
    if log.count + 1 >= 0x1_0000_0000_0000_0000 then Failure(Invalid("execution audit event count overflow"))
    else if log.count + 1 > MAX_PROTOCOL_U64 || f.occurredAt > MAX_PROTOCOL_U64 then Failure(Invalid("sqlite u64"))
    else
      var e := Event(log.count + 1, EventHash(c, log.count + 1, log.head, f), log.head, f);
      if !EventFits(log.events, e) then Failure(Database("UNIQUE constraint on audit events"))
      else Success(Log(InsertEvent(log.events, e), e.index, e.hash))
  }

  /** Every append to a valid chain adds one event at its end and leaves it valid. */
  lemma AppendKeepsValid(c: Crypto, log: Log, f: Fact)
    requires ValidLog(c, log) && Append(c, log, f).Success?
    ensures ValidLog(c, Append(c, log, f).value)
    ensures Append(c, log, f).value.events ==
            log.events + [Event(log.count + 1, EventHash(c, log.count + 1, log.head, f), log.head, f)]
  {
    var e := Event(log.count + 1, EventHash(c, log.count + 1, log.head, f), log.head, f);
    var longer := log.events + [e];
    if log.events != [] {
      assert Chained(c, log.events, |log.events| - 1);
    }
    forall i | 0 <= i < |longer| ensures Chained(c, longer, i) {
      if i < |log.events| {
        assert Chained(c, log.events, i);
      }
    }
  }

  /** A valid chain refuses an append only for its range, for the time's, or for a hash collision. */
  lemma AppendSucceedsIff(c: Crypto, log: Log, f: Fact)
    requires ValidLog(c, log)
    ensures Append(c, log, f).Success? <==>
            && log.count < MAX_PROTOCOL_U64 && f.occurredAt <= MAX_PROTOCOL_U64
            && (forall i :: 0 <= i < |log.events| ==> log.events[i].hash != EventHash(c, log.count + 1, log.head, f))
  {
    forall i | 0 <= i < |log.events| ensures log.events[i].index <= log.count {
      assert Chained(c, log.events, i);
    }
  }

  // ---------------------------------------------------------------- anchors

  function AnchorPreimage(count: u64, head: Bytes32, at: u64): Bytes {
    EXECUTION_AUDIT_ANCHOR_DOMAIN + (U16(PROTOCOL_VERSION) + (U64(count) + (head + U64(at))))
  }

  function AnchorOf(c: Crypto, log: Log, at: u64): Anchor {
    Anchor(c.sha256(AnchorPreimage(log.count, log.head, at)), log.count, log.head, at)
  }

  /** An anchor's id is the hash of a string that determines what it anchors and when. */
  lemma AnchorPreimageInjective(m: u64, h: Bytes32, at: u64, n: u64, g: Bytes32, later: u64)
    requires AnchorPreimage(m, h, at) == AnchorPreimage(n, g, later)
    ensures m == n && h == g && at == later
  {
    var d, v := EXECUTION_AUDIT_ANCHOR_DOMAIN, U16(PROTOCOL_VERSION);
    Split(d, v + (U64(m) + (h + U64(at))), d, v + (U64(n) + (g + U64(later))));
    Split(v, U64(m) + (h + U64(at)), v, U64(n) + (g + U64(later)));
    Split(U64(m), h + U64(at), U64(n), g + U64(later));
    Split(h, U64(at), g, U64(later));
    U64Injective(m, n);
    U64Injective(at, later);
  }

  /** The event stored under an index. */
  predicate HasEvent(events: seq<Event>, index: u64, hash: Bytes32) {
    exists i :: 0 <= i < |events| && events[i].index == index && events[i].hash == hash
  }

  predicate PrefixMatches(log: Log, anchor: Anchor) {
    if log.count < anchor.count then false
    else if log.count == anchor.count then log.head == anchor.head
    else HasEvent(log.events, anchor.count, anchor.head)
  }

  /** The verification of an anchor, given the verdict on the chain. */
  function CheckAnchor(log: Log, chainValid: bool, anchor: Anchor): AnchorCheck {
    AnchorCheck(chainValid && PrefixMatches(log, anchor), log.count < anchor.count)
  }

  /** In a valid chain an anchor of at least one event matches exactly when that event is the anchored one. */
  lemma AnchorMatchesIff(c: Crypto, log: Log, anchor: Anchor)
    requires ValidLog(c, log) && anchor.count >= 1
    ensures PrefixMatches(log, anchor) <==>
              anchor.count <= log.count && log.events[anchor.count - 1].hash == anchor.head
  {
    if anchor.count < log.count {
      assert Chained(c, log.events, anchor.count - 1);
      forall i | 0 <= i < |log.events| && log.events[i].index == anchor.count ensures i == anchor.count - 1 {
        assert Chained(c, log.events, i);
      }
    }
  }

  /** An anchor of no events matches only while nothing has been appended: indices start at one. */
  lemma EmptyAnchorMatchesIff(c: Crypto, log: Log, anchor: Anchor)
    requires ValidLog(c, log) && anchor.count == 0 && anchor.head == GenesisHash(c)
    ensures PrefixMatches(log, anchor) <==> log.events == []
  {
    forall i | 0 <= i < |log.events| ensures log.events[i].index != 0 {
      assert Chained(c, log.events, i);
    }
  }

  /** The chain has the anchored head where the anchor says: at its own head, or at the event of that number. */
  ghost predicate Anchored(log: Log, anchor: Anchor) {
    && anchor.count <= |log.events|
    && (if anchor.count == |log.events| then log.head == anchor.head
        else anchor.count >= 1 && log.events[anchor.count - 1].hash == anchor.head)
  }

  lemma AnchoredIff(c: Crypto, log: Log, anchor: Anchor)
    requires ValidLog(c, log)
    ensures PrefixMatches(log, anchor) <==> Anchored(log, anchor)
  {
    if anchor.count >= 1 {
      AnchorMatchesIff(c, log, anchor);
    } else {
      forall i | 0 <= i < |log.events| ensures log.events[i].index != 0 {
        assert Chained(c, log.events, i);
      }
    }
  }

  /** The log after a series of appends, if all succeed. */
  function AppendAll(c: Crypto, log: Log, facts: seq<Fact>): Result<Log, AuditError>
    decreases |facts|
  {
    if facts == [] then Success(log) else
    var next :- Append(c, log, facts[0]);
    AppendAll(c, next, facts[1..])
  }

  lemma {:induction false} AppendAllExtends(c: Crypto, log: Log, facts: seq<Fact>)
    requires ValidLog(c, log) && AppendAll(c, log, facts).Success?
    ensures var after := AppendAll(c, log, facts).value;
            && ValidLog(c, after) && |after.events| == |log.events| + |facts|
            && after.events[..|log.events|] == log.events
    decreases |facts|
  {
    if facts != [] {
      var next := Append(c, log, facts[0]).value;
      AppendKeepsValid(c, log, facts[0]);
      AppendAllExtends(c, next, facts[1..]);
      var after := AppendAll(c, log, facts).value;
      assert after.events[..|log.events|] == after.events[..|next.events|][..|log.events|];
    }
  }

  /** An anchor stays valid under every later series of appends exactly when it anchored at least one event, or nothing
      was appended since. */
  lemma AnchorPersistsIff(c: Crypto, log: Log, at: u64, facts: seq<Fact>)
    requires ValidLog(c, log) && AppendAll(c, log, facts).Success?
    ensures ValidLog(c, AppendAll(c, log, facts).value)
    ensures CheckAnchor(AppendAll(c, log, facts).value, true, AnchorOf(c, log, at)).valid <==>
              log.count >= 1 || facts == []
    ensures !CheckAnchor(AppendAll(c, log, facts).value, true, AnchorOf(c, log, at)).rollbackDetected
  {
    var after, anchor := AppendAll(c, log, facts).value, AnchorOf(c, log, at);
    AppendAllExtends(c, log, facts);
    if log.count >= 1 {
      assert after.events[log.count - 1] == after.events[..|log.events|][log.count - 1];
      AnchorMatchesIff(c, after, anchor);
    } else {
      EmptyAnchorMatchesIff(c, after, anchor);
    }
  }

  // ---------------------------------------------------------------- tamper evidence

  ghost function LogInputs(c: Crypto, events: seq<Event>): set<Bytes> {
    {GenesisPreimage()} + set i | 0 <= i < |events| ::
      EventPreimage(events[i].index, events[i].previous, events[i].fact)
  }

  /** The frame of an event determines the event. */
  lemma EventPreimageInjective(i: u64, p: Bytes32, f: Fact, j: u64, q: Bytes32, g: Fact)
    requires EventPreimage(i, p, f) == EventPreimage(j, q, g)
    ensures i == j && p == q && f == g
  {
    var v := U16(PROTOCOL_VERSION);
    var f4 := U64(|f.status|) + (f.status + U64(f.occurredAt));
    var g4 := U64(|g.status|) + (g.status + U64(g.occurredAt));
    var f2 := f.subject + (f.binding + f4);
    var g2 := g.subject + (g.binding + g4);
    var f1 := U64(|f.eventType|) + (f.eventType + f2);
    var g1 := U64(|g.eventType|) + (g.eventType + g2);
    Split(EXECUTION_AUDIT_DOMAIN, v + (U64(i) + (p + f1)), EXECUTION_AUDIT_DOMAIN, v + (U64(j) + (q + g1)));
    Split(v, U64(i) + (p + f1), v, U64(j) + (q + g1));
    Split(U64(i), p + f1, U64(j), q + g1);
    Split(p, f1, q, g1);
    U64Injective(i, j);
    TextFrame(f.eventType, f2, g.eventType, g2);
    Split(f.subject, f.binding + f4, g.subject, g.binding + g4);
    Split(f.binding, f4, g.binding, g4);
    TextFrame(f.status, U64(f.occurredAt), g.status, U64(g.occurredAt));
    U64Injective(f.occurredAt, g.occurredAt);
  }

  /** A length-prefixed text is read back whole. */
  lemma TextFrame(a: Text, s: Bytes, b: Text, t: Bytes)
    requires U64(|a|) + (a + s) == U64(|b|) + (b + t)
    ensures a == b && s == t
  {
    Split(U64(|a|), a + s, U64(|b|), b + t);
    U64Injective(|a|, |b|);
    Split(a, s, b, t);
  }

  lemma GenesisIsNoEvent(i: u64, p: Bytes32, f: Fact)
    ensures GenesisPreimage() != EventPreimage(i, p, f)
  {
    assert GenesisPreimage()[21] == EXECUTION_AUDIT_GENESIS_DOMAIN[21];
    assert EventPreimage(i, p, f)[21] == EXECUTION_AUDIT_DOMAIN[21];
    assert EXECUTION_AUDIT_GENESIS_DOMAIN[21] as int == 'G' as int && EXECUTION_AUDIT_DOMAIN[21] as int == 'V' as int;
  }

  /** Valid chains that agree on one hash agree on everything up to it. */
  lemma {:induction false} SameHashSamePrefix(c: Crypto, a: Log, b: Log, m: nat, n: nat)
    requires ValidLog(c, a) && ValidLog(c, b) && m <= |a.events| && n <= |b.events|
    requires PreviousHash(c, a.events, m) == PreviousHash(c, b.events, n)
    requires CollisionFree(c.sha256, LogInputs(c, a.events) + LogInputs(c, b.events))
    ensures m == n && a.events[..m] == b.events[..n]
  {
    var inputs := LogInputs(c, a.events) + LogInputs(c, b.events);
    if m > 0 {
      assert Chained(c, a.events, m - 1);
    }
    if n > 0 {
      assert Chained(c, b.events, n - 1);
    }
    if m > 0 && n > 0 {
      var e, f := a.events[m - 1], b.events[n - 1];
      NoCollision(c.sha256, inputs, EventPreimage(e.index, e.previous, e.fact),
                  EventPreimage(f.index, f.previous, f.fact));
      EventPreimageInjective(e.index, e.previous, e.fact, f.index, f.previous, f.fact);
      SameHashSamePrefix(c, a, b, m - 1, n - 1);
      assert a.events[..m] == a.events[..m - 1] + [e] && b.events[..n] == b.events[..n - 1] + [f];
    } else if m > 0 {
      var e := a.events[m - 1];
      GenesisIsNoEvent(e.index, e.previous, e.fact);
      NoCollision(c.sha256, inputs, EventPreimage(e.index, e.previous, e.fact), GenesisPreimage());
    } else if n > 0 {
      var f := b.events[n - 1];
      GenesisIsNoEvent(f.index, f.previous, f.fact);
      NoCollision(c.sha256, inputs, EventPreimage(f.index, f.previous, f.fact), GenesisPreimage());
    }
  }

  /** Two valid chains with the same head are the same chain, or two of their events collide. */
  lemma EqualHeadsEqualChains(c: Crypto, a: Log, b: Log)
    requires ValidLog(c, a) && ValidLog(c, b) && a.head == b.head
    requires CollisionFree(c.sha256, LogInputs(c, a.events) + LogInputs(c, b.events))
    ensures a == b
  {
    SameHashSamePrefix(c, a, b, |a.events|, |b.events|);
    assert a.events[..|a.events|] == a.events && b.events[..|b.events|] == b.events;
  }

  /** When the check of an anchor passes on a valid chain, the chain begins with exactly the anchored events. */
  lemma AnchorPinsPrefix(c: Crypto, anchored: Log, at: u64, current: Log)
    requires ValidLog(c, anchored) && ValidLog(c, current)
    requires CheckAnchor(current, true, AnchorOf(c, anchored, at)).valid
    requires CollisionFree(c.sha256, LogInputs(c, anchored.events) + LogInputs(c, current.events))
    ensures |anchored.events| <= |current.events| && current.events[..|anchored.events|] == anchored.events
  {
    var k := anchored.count;
    if k >= 1 {
      AnchorMatchesIff(c, current, AnchorOf(c, anchored, at));
      SameHashSamePrefix(c, anchored, current, k, k);
      assert anchored.events[..k] == anchored.events;
    }
  }

  // ---------------------------------------------------------------- the store

  class AuditStore {
    const c: Crypto
    var log: Log
    var anchors: map<Bytes32, Anchor>

    constructor (c: Crypto)
      ensures this.c == c && ValidLog(c, log) && log.events == [] && anchors == map[]
    {
      this.c := c;
      log := Log([], 0, GenesisHash(c));
      anchors := map[];
    }

    /** Appends an event and moves the head, or changes nothing. */
    method AppendEvent(f: Fact) returns (r: Outcome<AuditError>)
      modifies this`log
      ensures var after := Append(c, old(log), f);
              if after.Failure? then r == Fail(after.error) && log == old(log) else r == Pass && log == after.value
    {
      if log.count + 1 >= 0x1_0000_0000_0000_0000 {
        return Fail(Invalid("execution audit event count overflow"));
      }
      var index := log.count + 1;
      if index > MAX_PROTOCOL_U64 || f.occurredAt > MAX_PROTOCOL_U64 {
        return Fail(Invalid("sqlite u64"));
      }
      var e := Event(index, EventHash(c, index, log.head, f), log.head, f);
      if !EventFits(log.events, e) {
        return Fail(Database("UNIQUE constraint on audit events"));
      }
      log := log.(events := InsertEvent(log.events, e));
      log := log.(count := index, head := e.hash);
      return Pass;
    }

    /** Walks the chain once; the verdict is exactly validity, whatever the tables hold. */
    method VerifyChain() returns (valid: bool)
      ensures valid <==> ValidLog(c, log)
    {
      var previous := GenesisHash(c);
      var expected := 1;
      var i := 0;
      while i < |log.events|
        invariant 0 <= i <= |log.events| && expected == i + 1
        invariant previous == PreviousHash(c, log.events, i)
        invariant forall j {:trigger Chained(c, log.events, j)} :: 0 <= j < i ==> Chained(c, log.events, j)
      {
        var e := log.events[i];
        var hash := EventHash(c, e.index, previous, e.fact);
        if e.index != expected || e.previous != previous || e.hash != hash {
          assert !Chained(c, log.events, i);
          return false;
        }
        previous := e.hash;
        expected := expected + 1;
        i := i + 1;
      }
      return log.count == expected - 1 && log.head == previous;
    }

    /** Records the head of a chain that verifies; recording the same head at the same time again changes nothing. */
    method CreateAnchor(at: u64) returns (r: Result<Anchor, AuditError>)
      modifies this`anchors
      ensures r.Success? ==>
                && ValidLog(c, log)
                && r.value.count == |log.events| && r.value.head == log.head && r.value.anchoredAt == at
                && r.value.id == c.sha256(AnchorPreimage(|log.events|, log.head, at))
                && anchors == old(anchors)[r.value.id := r.value]
      ensures r.Failure? ==> anchors == old(anchors)
      ensures r.Failure? <==>
              || !ValidLog(c, log) || log.count > MAX_PROTOCOL_U64 || at > MAX_PROTOCOL_U64
              || (AnchorOf(c, log, at).id in old(anchors)
                  && old(anchors)[AnchorOf(c, log, at).id] != AnchorOf(c, log, at))
    {
      var valid := VerifyChain();
      if !valid {
        return Failure(Corrupt("cannot anchor an invalid execution audit chain"));
      }
      var anchor := AnchorOf(c, log, at);
      if anchor.count > MAX_PROTOCOL_U64 || at > MAX_PROTOCOL_U64 {
        return Failure(Invalid("sqlite u64"));
      }
      if anchor.id !in anchors {
        anchors := anchors[anchor.id := anchor];
      } else if anchors[anchor.id] != anchor {
        return Failure(AnchorConflict);
      }
      return Success(anchor);
    }

    method VerifyAnchor(anchor: Anchor) returns (r: AnchorCheck)
      ensures r.valid <==> ValidLog(c, log) && Anchored(log, anchor)
      ensures r.rollbackDetected <==> log.count < anchor.count
    {
      var valid := VerifyChain();
      if valid {
        AnchoredIff(c, log, anchor);
      }
      r := CheckAnchor(log, valid, anchor);
    }
  }
}
