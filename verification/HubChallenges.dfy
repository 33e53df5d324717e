/** Challenges made with packages that one HUB store signed. */
module HubChallenges {
  import opened ByteStrings
  import opened Protocol
  import opened Types
  import opened HubRecords
  import opened HubInvariant
  import HubMachine
  import HubHistory
  import HubTheorems
  import Closing
  import Challenges

  /** The package is the one stored for some state of some channel. */
  ghost predicate IsStored(db: Database, p: RecoveryPackage) {
    exists coin, k: u64 :: coin in db && k in db[coin].states && p == db[coin].states[k].recoveryPackage
  }

  lemma StoredSequence(c: Crypto, db: Database, p: RecoveryPackage)
    requires DatabaseOk(c, db) && IsStored(db, p)
    ensures 1 <= p.officialState.checkpoint.stateSequence <= 64
  {
    var coin, k: u64 :| coin in db && k in db[coin].states && p == db[coin].states[k].recoveryPackage;
    assert ChannelOk(c, coin, db[coin]);
    HubHistory.StateLink(c, coin, db[coin], k);
    HubHistory.PackageAt(c, coin, db[coin], k);
  }

  /** Any chain of accepted challenges whose packages come from one reachable store has at most 64 links. */
  lemma StoreChainIsShort(c: Crypto, m: Closing.Modules, vm: Closing.Vm, events: seq<HubMachine.Event>,
                          chain: seq<Challenges.Made>)
    requires Challenges.ChallengeChain(c, m, vm, chain)
    requires forall i :: 0 <= i < |chain| ==> IsStored(HubMachine.Run(c, events).db, chain[i].challenge.latest)
    ensures |chain| <= 64
  {
    HubTheorems.RunOk(c, events);
    ShortFrom(c, m, vm, HubMachine.Run(c, events).db, chain);
  }

  lemma ShortFrom(c: Crypto, m: Closing.Modules, vm: Closing.Vm, db: Database, chain: seq<Challenges.Made>)
    requires Challenges.ChallengeChain(c, m, vm, chain) && DatabaseOk(c, db)
    requires forall i :: 0 <= i < |chain| ==> IsStored(db, chain[i].challenge.latest)
    ensures |chain| <= 64
  {
    forall i | 0 <= i < |chain| ensures Challenges.LatestSequence(chain[i].challenge) <= 64 {
      StoredSequence(c, db, chain[i].challenge.latest);
    }
    Challenges.ChainIsShort(c, m, vm, chain);
  }
}
