/**
 * The reward program registry (handlers/reward-program.ts). Both event forms
 * write a fresh `RewardProgram` record under a hash of the program's terms and
 * the event's log id, after snapshotting the program's market; the record's
 * `programId` hashes the terms alone. The hash function is a parameter.
 */
module RewardPrograms {
  import opened Wrappers
  import opened Ids
  import opened Schema
  import opened Storage
  import opened Initializers
  import opened Snapshots

  // ---------------------------------------------------------------------------
  // Events (the on-chain rates and timestamps are unsigned)

  /** The legacy emission form: no start or end of the program. */
  datatype RewardsEmissionSetEvent = RewardsEmissionSetEvent(
    meta: EventMeta, sender: Address, urd: Address, rewardToken: Address, market: Bytes,
    supplyRewardTokensPerYear: nat, borrowRewardTokensPerYear: nat, collateralRewardTokensPerYear: nat)

  /** The registry form: the program also names its start and end. */
  datatype ProgramRegisteredEvent = ProgramRegisteredEvent(
    meta: EventMeta, sender: Address, urd: Address, rewardToken: Address, market: Bytes,
    start: nat, end: nat,
    supplyRewardTokensPerYear: nat, borrowRewardTokensPerYear: nat, collateralRewardTokensPerYear: nat)

  /** The terms both ids are hashed from: `sender ++ urd ++ rewardToken ++ market`. */
  function ProgramKey(sender: Address, urd: Address, rewardToken: Address, market: Bytes): Bytes {
    sender + urd + rewardToken + market
  }

  /** The record id: the terms and the log id, hashed, so that every event gets its own record. */
  function RecordId(hash: Bytes -> Bytes, key: Bytes, logId: Bytes): Bytes {
    hash(key + logId)
  }

  // ---------------------------------------------------------------------------
  // The records the two handlers build, field by field

  function EmissionProgram(hash: Bytes -> Bytes, e: RewardsEmissionSetEvent, market: Market, marketSnapshot: MarketSnapshot): RewardProgram {
    var key := ProgramKey(e.sender, e.urd, e.rewardToken, e.market);
    RewardProgram(RecordId(hash, key, e.meta.logId), hash(key), e.sender, e.urd, e.rewardToken,
                  market.id, marketSnapshot.id, e.meta.timestamp, None, None,
                  e.supplyRewardTokensPerYear, e.borrowRewardTokensPerYear, e.collateralRewardTokensPerYear)
  }

  function RegisteredProgram(hash: Bytes -> Bytes, e: ProgramRegisteredEvent, market: Market, marketSnapshot: MarketSnapshot): RewardProgram {
    var key := ProgramKey(e.sender, e.urd, e.rewardToken, e.market);
    RewardProgram(RecordId(hash, key, e.meta.logId), hash(key), e.sender, e.urd, e.rewardToken,
                  market.id, marketSnapshot.id, e.meta.timestamp, Some(e.start), Some(e.end),
                  e.supplyRewardTokensPerYear, e.borrowRewardTokensPerYear, e.collateralRewardTokensPerYear)
  }

  // ---------------------------------------------------------------------------
  // The handlers, as functions of the store

  /** `handleEmission`: fatal for an unknown market; otherwise snapshot the market and write a fresh record. */
  function AfterEmission(s: State, hash: Bytes -> Bytes, e: RewardsEmissionSetEvent): Result<State> {
    var market :- GetMarket(s.markets, e.market);
    var (marketSnapshots, snapshot) := WriteMarketSnapshot(s.marketSnapshots, market, e.meta.timestamp, e.meta.blockNumber);
    var program := EmissionProgram(hash, e, market, snapshot);
    Ok(s.(marketSnapshots := marketSnapshots, rewardPrograms := s.rewardPrograms[program.id := program]))
  }

  /** `handleMarketRewardsProgramRegistered`: the same, with the program's start and end recorded. */
  function AfterProgramRegistered(s: State, hash: Bytes -> Bytes, e: ProgramRegisteredEvent): Result<State> {
    var market :- GetMarket(s.markets, e.market);
    var (marketSnapshots, snapshot) := WriteMarketSnapshot(s.marketSnapshots, market, e.meta.timestamp, e.meta.blockNumber);
    var program := RegisteredProgram(hash, e, market, snapshot);
    Ok(s.(marketSnapshots := marketSnapshots, rewardPrograms := s.rewardPrograms[program.id := program]))
  }

  // ---------------------------------------------------------------------------
  // Ids

  /** Two registrations of the same terms share their `programId`, whatever their log ids. */
  lemma ProgramIdIgnoresLogId(hash: Bytes -> Bytes, e1: ProgramRegisteredEvent, e2: ProgramRegisteredEvent,
                              m1: Market, m2: Market, snap1: MarketSnapshot, snap2: MarketSnapshot)
    requires e1.sender == e2.sender && e1.urd == e2.urd && e1.rewardToken == e2.rewardToken && e1.market == e2.market
    ensures RegisteredProgram(hash, e1, m1, snap1).programId == RegisteredProgram(hash, e2, m2, snap2).programId
  {
  }

  /**
   * With an injective hash, two events with the same terms but different log
   * ids get two different records: a later registration never replaces an
   * earlier one.
   */
  lemma RecordIdsDistinct(hash: Bytes -> Bytes, key: Bytes, logId1: Bytes, logId2: Bytes)
    requires forall a, b :: hash(a) == hash(b) ==> a == b
    requires logId1 != logId2
    ensures RecordId(hash, key, logId1) != RecordId(hash, key, logId2)
  {
    assert (key + logId1)[|key|..] == logId1;
    assert (key + logId2)[|key|..] == logId2;
  }

  // ---------------------------------------------------------------------------
  // What one event writes

  /** An emission fails exactly when its market is unknown. */
  lemma EmissionFails(s: State, hash: Bytes -> Bytes, e: RewardsEmissionSetEvent)
    ensures AfterEmission(s, hash, e).Fatal? <==> e.market !in s.markets
  {
  }

  /**
   * An emission snapshots its market at the event's timestamp and stores,
   * under the hash of its terms and log id, a record that copies the terms
   * and the three rates verbatim, points at that snapshot, and has no start
   * or end. The snapshot copies all five market totals; every other snapshot
   * and every other record is kept.
   */
  lemma EmissionRecord(s: State, hash: Bytes -> Bytes, e: RewardsEmissionSetEvent)
    requires MarketsKeyed(s.markets) && MarketSnapshotsKeyed(s.marketSnapshots)
    ensures var r, key := AfterEmission(s, hash, e), ProgramKey(e.sender, e.urd, e.rewardToken, e.market);
      var id, snapshotId := hash(key + e.meta.logId), SnapshotId(e.market, e.meta.timestamp);
      r.Ok? ==>
        e.market in s.markets &&
        r.value.rewardPrograms.Keys == s.rewardPrograms.Keys + {id} &&
        (forall k :: k in s.rewardPrograms && k != id ==> r.value.rewardPrograms[k] == s.rewardPrograms[k]) &&
        r.value.rewardPrograms[id] ==
          RewardProgram(id, hash(key), e.sender, e.urd, e.rewardToken, e.market, snapshotId, e.meta.timestamp,
                        None, None,
                        e.supplyRewardTokensPerYear, e.borrowRewardTokensPerYear, e.collateralRewardTokensPerYear) &&
        var m := s.markets[e.market];
        r.value.marketSnapshots == s.marketSnapshots[snapshotId :=
          MarketSnapshot(snapshotId, e.market, m.totalSupplyShares, m.totalSupplyAssets,
                         m.totalBorrowShares, m.totalBorrowAssets, m.totalCollateral, e.meta.timestamp, e.meta.blockNumber)]
  {
    if e.market in s.markets {
      MarketSnapshotCopies(s.marketSnapshots, s.markets[e.market], e.meta.timestamp, e.meta.blockNumber);
    }
  }

  /** A registration fails exactly when its market is unknown. */
  lemma ProgramRegisteredFails(s: State, hash: Bytes -> Bytes, e: ProgramRegisteredEvent)
    ensures AfterProgramRegistered(s, hash, e).Fatal? <==> e.market !in s.markets
  {
  }

  /** A registration writes the record an emission would, with the program's start and end set. */
  lemma ProgramRegisteredRecord(s: State, hash: Bytes -> Bytes, e: ProgramRegisteredEvent)
    requires MarketsKeyed(s.markets) && MarketSnapshotsKeyed(s.marketSnapshots)
    ensures var r, key := AfterProgramRegistered(s, hash, e), ProgramKey(e.sender, e.urd, e.rewardToken, e.market);
      var id, snapshotId := hash(key + e.meta.logId), SnapshotId(e.market, e.meta.timestamp);
      r.Ok? ==>
        e.market in s.markets &&
        r.value.rewardPrograms.Keys == s.rewardPrograms.Keys + {id} &&
        (forall k :: k in s.rewardPrograms && k != id ==> r.value.rewardPrograms[k] == s.rewardPrograms[k]) &&
        r.value.rewardPrograms[id] ==
          RewardProgram(id, hash(key), e.sender, e.urd, e.rewardToken, e.market, snapshotId, e.meta.timestamp,
                        Some(e.start), Some(e.end),
                        e.supplyRewardTokensPerYear, e.borrowRewardTokensPerYear, e.collateralRewardTokensPerYear) &&
        var m := s.markets[e.market];
        r.value.marketSnapshots == s.marketSnapshots[snapshotId :=
          MarketSnapshot(snapshotId, e.market, m.totalSupplyShares, m.totalSupplyAssets,
                         m.totalBorrowShares, m.totalBorrowAssets, m.totalCollateral, e.meta.timestamp, e.meta.blockNumber)]
  {
    if e.market in s.markets {
      MarketSnapshotCopies(s.marketSnapshots, s.markets[e.market], e.meta.timestamp, e.meta.blockNumber);
    }
  }

  /**
   * The record written does not depend on what was stored under its id: two
   * stores that differ only in their reward programs get the same record.
   */
  lemma ProgramRegisteredIgnoresStoredRecord(s: State, programs: map<Bytes, RewardProgram>, hash: Bytes -> Bytes, e: ProgramRegisteredEvent)
    ensures var r1, r2 := AfterProgramRegistered(s, hash, e), AfterProgramRegistered(s.(rewardPrograms := programs), hash, e);
      var id := hash(ProgramKey(e.sender, e.urd, e.rewardToken, e.market) + e.meta.logId);
      r1.Ok? == r2.Ok? && (r1.Ok? ==> r1.value.rewardPrograms[id] == r2.value.rewardPrograms[id])
  {
  }

  /** Only the market snapshots and the reward programs change, and no market, position or ledger. */
  lemma EmissionLeavesLedgers(s: State, hash: Bytes -> Bytes, e: RewardsEmissionSetEvent)
    ensures var r := AfterEmission(s, hash, e);
      r.Ok? ==> r.value == s.(marketSnapshots := r.value.marketSnapshots, rewardPrograms := r.value.rewardPrograms)
  {
  }

  lemma ProgramRegisteredLeavesLedgers(s: State, hash: Bytes -> Bytes, e: ProgramRegisteredEvent)
    ensures var r := AfterProgramRegistered(s, hash, e);
      r.Ok? ==> r.value == s.(marketSnapshots := r.value.marketSnapshots, rewardPrograms := r.value.rewardPrograms)
  {
  }

  // ---------------------------------------------------------------------------
  // Invariants

  /** Writing a program whose market exists and whose snapshot is the one just written keeps the store well formed. */
  lemma WriteProgramKeepsValid(s: State, market: Market, timestamp: int, blockNumber: int, program: RewardProgram)
    requires Valid(s) && market.id in s.markets
    requires program.market == market.id && program.marketSnapshot == SnapshotId(market.id, timestamp)
    ensures var (marketSnapshots, _) := WriteMarketSnapshot(s.marketSnapshots, market, timestamp, blockNumber);
      Valid(s.(marketSnapshots := marketSnapshots, rewardPrograms := s.rewardPrograms[program.id := program]))
  {
    MarketSnapshotKeepsKeyed(s, market, timestamp, blockNumber);
    MarketSnapshotCopies(s.marketSnapshots, market, timestamp, blockNumber);
  }

  lemma EmissionPreservesValid(s: State, hash: Bytes -> Bytes, e: RewardsEmissionSetEvent)
    requires Valid(s)
    ensures AfterEmission(s, hash, e).Ok? ==> Valid(AfterEmission(s, hash, e).value)
  {
    if e.market in s.markets {
      var market := s.markets[e.market];
      MarketSnapshotCopies(s.marketSnapshots, market, e.meta.timestamp, e.meta.blockNumber);
      var snapshot := WriteMarketSnapshot(s.marketSnapshots, market, e.meta.timestamp, e.meta.blockNumber).1;
      WriteProgramKeepsValid(s, market, e.meta.timestamp, e.meta.blockNumber, EmissionProgram(hash, e, market, snapshot));
    }
  }

  lemma ProgramRegisteredPreservesValid(s: State, hash: Bytes -> Bytes, e: ProgramRegisteredEvent)
    requires Valid(s)
    ensures AfterProgramRegistered(s, hash, e).Ok? ==> Valid(AfterProgramRegistered(s, hash, e).value)
  {
    if e.market in s.markets {
      var market := s.markets[e.market];
      MarketSnapshotCopies(s.marketSnapshots, market, e.meta.timestamp, e.meta.blockNumber);
      var snapshot := WriteMarketSnapshot(s.marketSnapshots, market, e.meta.timestamp, e.meta.blockNumber).1;
      WriteProgramKeepsValid(s, market, e.meta.timestamp, e.meta.blockNumber, RegisteredProgram(hash, e, market, snapshot));
    }
  }

  // ---------------------------------------------------------------------------
  // The handlers on the store

  method HandleEmission(store: Store, hash: Bytes -> Bytes, e: RewardsEmissionSetEvent) returns (r: Result<()>)
    modifies store
    ensures var expected := AfterEmission(old(store.Model()), hash, e);
      r.Ok? == expected.Ok? &&
      (r.Ok? ==> store.Model() == expected.value) &&
      (r.Fatal? ==> store.Model() == old(store.Model()))
  {
    var key := ProgramKey(e.sender, e.urd, e.rewardToken, e.market);
    var id := hash(key + e.meta.logId);
    var market :- GetMarket(store.markets, e.market);
    var snapshot := SnapshotMarket(store, market, e.meta.timestamp, e.meta.blockNumber);
    var program := RewardProgram(id, hash(key), e.sender, e.urd, e.rewardToken, market.id, snapshot.id,
                                 e.meta.timestamp, None, None,
                                 e.supplyRewardTokensPerYear, e.borrowRewardTokensPerYear, e.collateralRewardTokensPerYear);
    store.rewardPrograms := store.rewardPrograms[id := program];
    return Ok(());
  }

  method HandleProgramRegistered(store: Store, hash: Bytes -> Bytes, e: ProgramRegisteredEvent) returns (r: Result<()>)
    modifies store
    ensures var expected := AfterProgramRegistered(old(store.Model()), hash, e);
      r.Ok? == expected.Ok? &&
      (r.Ok? ==> store.Model() == expected.value) &&
      (r.Fatal? ==> store.Model() == old(store.Model()))
  {
    var key := ProgramKey(e.sender, e.urd, e.rewardToken, e.market);
    var id := hash(key + e.meta.logId);
    var market :- GetMarket(store.markets, e.market);
    var snapshot := SnapshotMarket(store, market, e.meta.timestamp, e.meta.blockNumber);
    var program := RewardProgram(id, hash(key), e.sender, e.urd, e.rewardToken, market.id, snapshot.id,
                                 e.meta.timestamp, Some(e.start), Some(e.end),
                                 e.supplyRewardTokensPerYear, e.borrowRewardTokensPerYear, e.collateralRewardTokensPerYear);
    store.rewardPrograms := store.rewardPrograms[id := program];
    return Ok(());
  }
}
