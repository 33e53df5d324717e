/** The crowd that turns a greenlight off: how 65536 attesters of one entry make its status an error. */
module CustodyCrowd {
  import opened ByteStrings
  import opened Protocol
  import opened Types
  import opened Watchtower
  import opened Custody

  /** One attester: its name, its key, and its signature on the attestation. */
  datatype Holder = Holder(id: Bytes, key: Bytes48, signature: Bytes96)

  /** Names and keys that may be registered, all different, each with a signature that verifies. */
  ghost predicate Eligible(c: Crypto, a: Attestation, domain: Bytes, holders: seq<Holder>) {
    && ValidName(c, domain)
    && (forall h :: h in holders ==>
          && ValidName(c, h.id) && ParsePublicKey(c, h.key).Pass? && ParseSignature(c, h.signature).Pass?
          && VerifyHash(c, h.key, AttestationHash(c, a), h.signature).Pass?)
    && (forall i, j :: 0 <= i < j < |holders| ==> holders[i].id != holders[j].id && holders[i].key != holders[j].key)
  }

  function SignedBy(a: Attestation, domain: Bytes, h: Holder): SignedAttestation {
    SignedAttestation(a, h.id, domain, h.key, h.signature)
  }

  /** Each attester in turn registers and records its attestation. */
  function CrowdEvents(d: Deliveries, a: Attestation, domain: Bytes, holders: seq<Holder>): seq<Event> {
    if holders == [] then []
    else
      var h := holders[|holders| - 1];
      CrowdEvents(d, a, domain, holders[..|holders| - 1])
      + [Registers(h.id, domain, h.key, 0), Records(SignedBy(a, domain, h), d, 0)]
  }

  const EmptyStore := Store(map[], map[])

  function KeysOf(holders: seq<Holder>): (keys: seq<Bytes48>)
    ensures |keys| == |holders|
    ensures forall i :: 0 <= i < |holders| ==> keys[i] == holders[i].key
  {
    seq(|holders|, i requires 0 <= i < |holders| => holders[i].key)
  }

  /** Exactly these attesters are registered, and exactly their keys have attested. */
  ghost predicate Attested(c: Crypto, s: Store, a: Attestation, domain: Bytes, holders: seq<Holder>) {
    && StoreOk(c, s)
    && (forall id :: id in s.attesters ==>
          exists h :: h in holders && h.id == id && s.attesters[id] == Attester(domain, h.key))
    && Keys(s.rows, a) == Elements(KeysOf(holders))
  }

  predicate Recordable(a: Attestation) {
    1 <= a.stateSequence <= MAX_PROTOCOL_U64 && a.entryIndex <= MAX_PROTOCOL_U64
  }

  function Joined(s: Store, domain: Bytes, h: Holder): Store {
    s.(attesters := s.attesters[h.id := Attester(domain, h.key)])
  }

  lemma Registering(c: Crypto, s: Store, domain: Bytes, h: Holder)
    requires StoreOk(c, s) && ValidName(c, h.id) && ValidName(c, domain) && ParsePublicKey(c, h.key).Pass?
    requires h.id !in s.attesters && (forall id :: id in s.attesters ==> s.attesters[id].key != h.key)
    ensures RegisterAttester(c, s, h.id, domain, h.key, 0) == Success(Joined(s, domain, h))
    ensures StoreOk(c, Joined(s, domain, h))
  {
    RegistrationKeeps(c, s, h.id, domain, h.key, 0);
  }

  function Recorded(s: Store, a: Attestation, domain: Bytes, h: Holder): Store {
    s.(rows := s.rows[KeyOf(SignedBy(a, domain, h)) := Row(a, domain, h.key, h.signature)])
  }

  lemma Recording(c: Crypto, s: Store, d: Deliveries, a: Attestation, domain: Bytes, h: Holder)
    requires StoreOk(c, s) && ValidName(c, h.id) && ParseSignature(c, h.signature).Pass? && Recordable(a)
    requires VerifyHash(c, h.key, AttestationHash(c, a), h.signature).Pass?
    requires h.id in s.attesters && s.attesters[h.id] == Attester(domain, h.key)
    requires ExpectedAttestation(c, d, a.fundingCoinId, a.stateSequence, a.entryIndex) == Success(a)
    requires KeyOf(SignedBy(a, domain, h)) !in s.rows
    ensures RecordAttestation(c, s, d, SignedBy(a, domain, h), 0) == Success(Recorded(s, a, domain, h))
    ensures StoreOk(c, Recorded(s, a, domain, h))
  {
    KeyTakenIff(c, s, d, SignedBy(a, domain, h));
    RecordingKeeps(c, s, d, SignedBy(a, domain, h), 0);
  }

  lemma RecordedKeys(s: Store, a: Attestation, domain: Bytes, h: Holder)
    requires KeyOf(SignedBy(a, domain, h)) !in s.rows
    ensures Keys(Recorded(s, a, domain, h).rows, a) == Keys(s.rows, a) + {h.key}
  {
    var after, k := Recorded(s, a, domain, h).rows, KeyOf(SignedBy(a, domain, h));
    assert Matching(after, a) == Matching(s.rows, a) + {k};
    forall key | key in Keys(s.rows, a) ensures key in Keys(after, a) {
      var j :| j in Matching(s.rows, a) && s.rows[j].key == key;
      assert j in Matching(after, a) && after[j].key == key;
    }
    assert k in Matching(after, a) && after[k].key == h.key;
  }

  lemma TwoMoreEvents(c: Crypto, events: seq<Event>, x: Event, y: Event)
    ensures Run(c, EmptyStore, events + [x, y]) == Apply(c, Apply(c, Run(c, EmptyStore, events), x), y)
  {
    var all := events + [x, y];
    assert all[..|all| - 1] == events + [x] && (events + [x])[..|events|] == events;
  }

  /** The next attester of a crowd has a name, a key and a row that nothing in the store has. */
  lemma NewcomerIsNew(c: Crypto, s: Store, a: Attestation, domain: Bytes, holders: seq<Holder>, h: Holder)
    requires Attested(c, s, a, domain, holders) && Eligible(c, a, domain, holders + [h])
    ensures h.id !in s.attesters && (forall id :: id in s.attesters ==> s.attesters[id].key != h.key)
  {
    var all := holders + [h];
    assert h == all[|holders|];
    forall id | id in s.attesters ensures id != h.id && s.attesters[id].key != h.key {
      var other :| other in holders && other.id == id && s.attesters[id] == Attester(domain, other.key);
      var i :| 0 <= i < |holders| && holders[i] == other;
      assert all[i] == other;
    }
  }

  lemma NoRowOfAStranger(c: Crypto, s: Store, a: Attestation, domain: Bytes, h: Holder)
    requires StoreOk(c, s) && h.id !in s.attesters
    ensures KeyOf(SignedBy(a, domain, h)) !in s.rows
  {
    forall k | k in s.rows ensures k.attesterId in s.attesters {
      assert RowOk(c, s, k);
    }
  }

  /** What both events of one attester do. */
  lemma BothEvents(c: Crypto, s: Store, d: Deliveries, a: Attestation, domain: Bytes, h: Holder)
    requires StoreOk(c, s) && Recordable(a)
    requires Eligible(c, a, domain, [h])
    requires h.id !in s.attesters && (forall id :: id in s.attesters ==> s.attesters[id].key != h.key)
    requires ExpectedAttestation(c, d, a.fundingCoinId, a.stateSequence, a.entryIndex) == Success(a)
    ensures Apply(c, Apply(c, s, Registers(h.id, domain, h.key, 0)), Records(SignedBy(a, domain, h), d, 0)) ==
            Recorded(Joined(s, domain, h), a, domain, h)
    ensures StoreOk(c, Recorded(Joined(s, domain, h), a, domain, h))
    ensures Keys(Recorded(Joined(s, domain, h), a, domain, h).rows, a) == Keys(s.rows, a) + {h.key}
  {
    assert h in [h];
    Registering(c, s, domain, h);
    NoRowOfAStranger(c, s, a, domain, h);
    Recording(c, Joined(s, domain, h), d, a, domain, h);
    RecordedKeys(Joined(s, domain, h), a, domain, h);
  }

  lemma EligibleAlone(c: Crypto, a: Attestation, domain: Bytes, holders: seq<Holder>, h: Holder)
    requires Eligible(c, a, domain, holders + [h])
    ensures Eligible(c, a, domain, holders) && Eligible(c, a, domain, [h])
  {
    var all := holders + [h];
    assert h == all[|holders|];
    forall i | 0 <= i < |holders| ensures holders[i] == all[i] {
    }
    forall other | other in holders ensures other in all {
    }
  }

  /** One attester more. */
  lemma AttestsToo(c: Crypto, s: Store, d: Deliveries, a: Attestation, domain: Bytes, holders: seq<Holder>, h: Holder)
    requires Attested(c, s, a, domain, holders) && Eligible(c, a, domain, holders + [h]) && Recordable(a)
    requires ExpectedAttestation(c, d, a.fundingCoinId, a.stateSequence, a.entryIndex) == Success(a)
    ensures var joined := Apply(c, s, Registers(h.id, domain, h.key, 0));
            Attested(c, Apply(c, joined, Records(SignedBy(a, domain, h), d, 0)), a, domain, holders + [h])
  {
    NewcomerIsNew(c, s, a, domain, holders, h);
    EligibleAlone(c, a, domain, holders, h);
    BothEvents(c, s, d, a, domain, h);
    AttestedGrows(c, s, a, domain, holders, h);
  }

  lemma AttestedGrows(c: Crypto, s: Store, a: Attestation, domain: Bytes, holders: seq<Holder>, h: Holder)
    requires Attested(c, s, a, domain, holders)
    requires var after := Recorded(Joined(s, domain, h), a, domain, h);
             StoreOk(c, after) && Keys(after.rows, a) == Keys(s.rows, a) + {h.key}
    ensures Attested(c, Recorded(Joined(s, domain, h), a, domain, h), a, domain, holders + [h])
  {
    var after, all := Recorded(Joined(s, domain, h), a, domain, h), holders + [h];
    forall id | id in after.attesters
      ensures exists other :: other in all && other.id == id && after.attesters[id] == Attester(domain, other.key)
    {
      if id == h.id {
        assert h in all;
      } else {
        var other :| other in holders && other.id == id && s.attesters[id] == Attester(domain, other.key);
        assert other in all;
      }
    }
    assert KeysOf(all) == KeysOf(holders) + [h.key];
  }

  /** The crowd may attest, and there is something to attest. */
  ghost predicate MayAttest(c: Crypto, d: Deliveries, a: Attestation, domain: Bytes, holders: seq<Holder>) {
    && Eligible(c, a, domain, holders) && Recordable(a)
    && ExpectedAttestation(c, d, a.fundingCoinId, a.stateSequence, a.entryIndex) == Success(a)
  }

  ghost predicate AllAttested(c: Crypto, d: Deliveries, a: Attestation, domain: Bytes, holders: seq<Holder>) {
    Attested(c, Run(c, EmptyStore, CrowdEvents(d, a, domain, holders)), a, domain, holders)
  }

  lemma FewerMayAttest(c: Crypto, d: Deliveries, a: Attestation, domain: Bytes, front: seq<Holder>, h: Holder)
    requires MayAttest(c, d, a, domain, front + [h])
    ensures MayAttest(c, d, a, domain, front)
  {
    EligibleAlone(c, a, domain, front, h);
  }

  lemma NobodyAttests(c: Crypto, d: Deliveries, a: Attestation, domain: Bytes)
    ensures AllAttested(c, d, a, domain, [])
  {
  }

  lemma {:induction false} CrowdAttests(c: Crypto, d: Deliveries, a: Attestation, domain: Bytes, holders: seq<Holder>)
    requires MayAttest(c, d, a, domain, holders)
    ensures AllAttested(c, d, a, domain, holders)
  {
    if holders == [] {
      NobodyAttests(c, d, a, domain);
    } else {
      var front, h := holders[..|holders| - 1], holders[|holders| - 1];
      assert holders == front + [h];
      FewerMayAttest(c, d, a, domain, front, h);
      CrowdAttests(c, d, a, domain, front);
      OneMoreAttests(c, d, a, domain, front, h);
    }
  }

  lemma OneMoreAttests(c: Crypto, d: Deliveries, a: Attestation, domain: Bytes, front: seq<Holder>, h: Holder)
    requires MayAttest(c, d, a, domain, front + [h]) && AllAttested(c, d, a, domain, front)
    ensures AllAttested(c, d, a, domain, front + [h])
  {
    var events, x, y := CrowdEvents(d, a, domain, front), Registers(h.id, domain, h.key, 0),
                        Records(SignedBy(a, domain, h), d, 0);
    MoreCrowd(d, a, domain, front, h);
    AttestsToo(c, Run(c, EmptyStore, events), d, a, domain, front, h);
    TwoMoreEvents(c, events, x, y);
  }

  lemma MoreCrowd(d: Deliveries, a: Attestation, domain: Bytes, front: seq<Holder>, h: Holder)
    ensures CrowdEvents(d, a, domain, front + [h]) ==
            CrowdEvents(d, a, domain, front)
                + [Registers(h.id, domain, h.key, 0), Records(SignedBy(a, domain, h), d, 0)]
  {
    assert (front + [h])[..|front|] == front;
  }

  lemma CrowdCounts(c: Crypto, s: Store, a: Attestation, domain: Bytes, holders: seq<Holder>)
    requires Attested(c, s, a, domain, holders) && Eligible(c, a, domain, holders)
    ensures |Keys(s.rows, a)| == |holders|
    ensures holders != [] ==> |Domains(s.rows, a)| >= 1
  {
    DistinctSize(KeysOf(holders));
    if holders != [] {
      assert KeysOf(holders)[0] in Keys(s.rows, a);
      var k :| k in Matching(s.rows, a) && s.rows[k].key == KeysOf(holders)[0];
      assert s.rows[k].domain in Domains(s.rows, a);
      SubsetCount({s.rows[k].domain}, Domains(s.rows, a));
    }
  }

  lemma CrowdStatus(c: Crypto, d: Deliveries, a: Attestation, domain: Bytes, holders: seq<Holder>)
    requires Eligible(c, a, domain, holders) && Recordable(a) && holders != []
    requires ExpectedAttestation(c, d, a.fundingCoinId, a.stateSequence, a.entryIndex) == Success(a)
    ensures var s := Run(c, EmptyStore, CrowdEvents(d, a, domain, holders));
            var status := ProductionGreenlight(c, s, d, a.fundingCoinId, a.stateSequence, a.entryIndex, 1);
            if |holders| < 0x1_0000 then status.Success? && status.value.ready
            else status == Failure(Corrupt("custody attester count"))
  {
    var s := Run(c, EmptyStore, CrowdEvents(d, a, domain, holders));
    CrowdAttests(c, d, a, domain, holders);
    CrowdCounts(c, s, a, domain, holders);
    NoMoreDomainsThanKeys(c, s, a);
    var k := FindConfirmation(c, d, a.fundingCoinId, a.stateSequence, a.entryIndex).value;
    GreenlightOver(c, s, d, a.fundingCoinId, a.stateSequence, a.entryIndex, 1, k, a);
  }

  /** A run of 65536 attesters: with all but the last the greenlight is on, and with the last its status is an error. */
  lemma CrowdExample(c: Crypto, d: Deliveries, a: Attestation, domain: Bytes, holders: seq<Holder>)
    requires Eligible(c, a, domain, holders) && |holders| == 0x1_0000 && Recordable(a)
    requires ExpectedAttestation(c, d, a.fundingCoinId, a.stateSequence, a.entryIndex) == Success(a)
    ensures var most := Run(c, EmptyStore, CrowdEvents(d, a, domain, holders[..0xFFFF]));
            var status := ProductionGreenlight(c, most, d, a.fundingCoinId, a.stateSequence, a.entryIndex, 1);
            status.Success? && status.value.ready
    ensures var all := Run(c, EmptyStore, CrowdEvents(d, a, domain, holders));
            ProductionGreenlight(c, all, d, a.fundingCoinId, a.stateSequence, a.entryIndex, 1)
            == Failure(Corrupt("custody attester count"))
  {
    CrowdStatus(c, d, a, domain, holders);
    CrowdStatus(c, d, a, domain, holders[..0xFFFF]);
  }
}
