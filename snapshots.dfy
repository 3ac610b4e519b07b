/**
 * Snapshot writers (snapshots.ts). Each writer loads the snapshot stored
 * under `<entity id in hex>-<timestamp>`, or starts a new one, overwrites
 * every field from the entity, and saves it: writes at the same timestamp
 * coalesce into one record. A writer touches its own snapshot table only.
 */
module Snapshots {
  import opened Wrappers
  import opened Ids
  import opened Schema
  import opened Storage

  // ---------------------------------------------------------------------------
  // The writers, as functions of their table

  /** The market snapshot table after `snapshotMarket(market, timestamp, blockNumber)`, and the snapshot written. */
  function WriteMarketSnapshot(snapshots: map<string, MarketSnapshot>, market: Market, timestamp: int, blockNumber: int)
    : (map<string, MarketSnapshot>, MarketSnapshot)
  {
    var id := SnapshotId(market.id, timestamp);
    var loaded := if id in snapshots then snapshots[id] else MarketSnapshot(id, [], 0, 0, 0, 0, 0, 0, 0);
    var snapshot := loaded.(market := market.id,
                            totalSupplyShares := market.totalSupplyShares,
                            totalSupplyAssets := market.totalSupplyAssets,
                            totalBorrowShares := market.totalBorrowShares,
                            totalBorrowAssets := market.totalBorrowAssets,
                            totalCollateral := market.totalCollateral,
                            timestamp := timestamp,
                            blockNumber := blockNumber);
    (snapshots[snapshot.id := snapshot], snapshot)
  }

  /** The position snapshot table after `snapshotPosition(position, marketSnapshot, timestamp, blockNumber)`. */
  function WritePositionSnapshot(snapshots: map<string, PositionSnapshot>, position: Position, marketSnapshot: MarketSnapshot,
                                 timestamp: int, blockNumber: int): (map<string, PositionSnapshot>, PositionSnapshot)
  {
    var id := SnapshotId(position.id, timestamp);
    var loaded := if id in snapshots then snapshots[id] else PositionSnapshot(id, [], ZeroAddress, "", 0, 0, 0, 0, 0);
    var snapshot := loaded.(position := position.id,
                            user := position.user,
                            marketSnapshot := marketSnapshot.id,
                            supplyShares := position.supplyShares,
                            borrowShares := position.borrowShares,
                            collateral := position.collateral,
                            timestamp := timestamp,
                            blockNumber := blockNumber);
    (snapshots[snapshot.id := snapshot], snapshot)
  }

  /** The vault snapshot table after `snapshotVault(vault, timestamp, blockNumber)`, and the snapshot written. */
  function WriteVaultSnapshot(snapshots: map<string, VaultSnapshot>, vault: Vault, timestamp: int, blockNumber: int)
    : (map<string, VaultSnapshot>, VaultSnapshot)
  {
    var id := SnapshotId(vault.id, timestamp);
    var loaded := if id in snapshots then snapshots[id] else VaultSnapshot(id, ZeroAddress, None, 0, 0, 0, 0);
    var snapshot := loaded.(vault := vault.id,
                            feeRecipient := vault.feeRecipient,
                            totalShares := vault.totalShares,
                            totalAssets := vault.totalAssets,
                            timestamp := timestamp,
                            blockNumber := blockNumber);
    (snapshots[snapshot.id := snapshot], snapshot)
  }

  /** The vault position snapshot table after `snapshotVaultPosition(position, vaultSnapshot, timestamp, blockNumber)`. */
  function WriteVaultPositionSnapshot(snapshots: map<string, VaultPositionSnapshot>, position: VaultPosition, vaultSnapshot: VaultSnapshot,
                                      timestamp: int, blockNumber: int): (map<string, VaultPositionSnapshot>, VaultPositionSnapshot)
  {
    var id := SnapshotId(position.id, timestamp);
    var loaded := if id in snapshots then snapshots[id] else VaultPositionSnapshot(id, "", ZeroAddress, 0, 0, 0);
    var snapshot := loaded.(vaultSnapshot := vaultSnapshot.id,
                            user := position.user,
                            shares := position.shares,
                            timestamp := timestamp,
                            blockNumber := blockNumber);
    (snapshots[snapshot.id := snapshot], snapshot)
  }

  // ---------------------------------------------------------------------------
  // What each writer stores

  /**
   * A market snapshot is stored under `<market>-<timestamp>` and holds exactly
   * the five market totals, the timestamp and the block number, whatever was
   * stored there before; every other snapshot is kept.
   */
  lemma MarketSnapshotCopies(snapshots: map<string, MarketSnapshot>, market: Market, timestamp: int, blockNumber: int)
    requires MarketSnapshotsKeyed(snapshots)
    ensures var id := SnapshotId(market.id, timestamp);
      var snapshot := MarketSnapshot(id, market.id, market.totalSupplyShares, market.totalSupplyAssets,
                                     market.totalBorrowShares, market.totalBorrowAssets,
                                     market.totalCollateral, timestamp, blockNumber);
      WriteMarketSnapshot(snapshots, market, timestamp, blockNumber) == (snapshots[id := snapshot], snapshot)
  {
  }

  /** A position snapshot copies the balances and the user, and links the given market snapshot. */
  lemma PositionSnapshotCopies(snapshots: map<string, PositionSnapshot>, position: Position, marketSnapshot: MarketSnapshot,
                               timestamp: int, blockNumber: int)
    requires forall k :: k in snapshots ==> snapshots[k].id == k
    ensures var id := SnapshotId(position.id, timestamp);
      var snapshot := PositionSnapshot(id, position.id, position.user, marketSnapshot.id,
                                       position.supplyShares, position.borrowShares, position.collateral,
                                       timestamp, blockNumber);
      WritePositionSnapshot(snapshots, position, marketSnapshot, timestamp, blockNumber) == (snapshots[id := snapshot], snapshot)
  {
  }

  /** A vault snapshot copies the fee recipient and both totals. */
  lemma VaultSnapshotCopies(snapshots: map<string, VaultSnapshot>, vault: Vault, timestamp: int, blockNumber: int)
    requires VaultSnapshotsKeyed(snapshots)
    ensures var id := SnapshotId(vault.id, timestamp);
      var snapshot := VaultSnapshot(id, vault.id, vault.feeRecipient, vault.totalShares, vault.totalAssets, timestamp, blockNumber);
      WriteVaultSnapshot(snapshots, vault, timestamp, blockNumber) == (snapshots[id := snapshot], snapshot)
  {
  }

  /** A vault position snapshot copies the shares and the user, and links the given vault snapshot. */
  lemma VaultPositionSnapshotCopies(snapshots: map<string, VaultPositionSnapshot>, position: VaultPosition, vaultSnapshot: VaultSnapshot,
                                    timestamp: int, blockNumber: int)
    requires forall k :: k in snapshots ==> snapshots[k].id == k
    ensures var id := SnapshotId(position.id, timestamp);
      var snapshot := VaultPositionSnapshot(id, vaultSnapshot.id, position.user, position.shares, timestamp, blockNumber);
      WriteVaultPositionSnapshot(snapshots, position, vaultSnapshot, timestamp, blockNumber) == (snapshots[id := snapshot], snapshot)
  {
  }

  // ---------------------------------------------------------------------------
  // Coalescing

  /**
   * A second market snapshot of the same market at the same timestamp
   * supersedes the first: the table is as if only the second were written.
   */
  lemma MarketSnapshotCoalesces(snapshots: map<string, MarketSnapshot>, first: Market, second: Market,
                                timestamp: int, blockNumber1: int, blockNumber2: int)
    requires MarketSnapshotsKeyed(snapshots) && first.id == second.id
    ensures WriteMarketSnapshot(WriteMarketSnapshot(snapshots, first, timestamp, blockNumber1).0, second, timestamp, blockNumber2)
         == WriteMarketSnapshot(snapshots, second, timestamp, blockNumber2)
  {
    MarketSnapshotCopies(snapshots, first, timestamp, blockNumber1);
    var once := WriteMarketSnapshot(snapshots, first, timestamp, blockNumber1).0;
    assert MarketSnapshotsKeyed(once);
    MarketSnapshotCopies(once, second, timestamp, blockNumber2);
    MarketSnapshotCopies(snapshots, second, timestamp, blockNumber2);
    var last := WriteMarketSnapshot(snapshots, second, timestamp, blockNumber2).1;
    assert once[last.id := last] == snapshots[last.id := last];
  }

  /** Writing the same market state twice at one timestamp stores one record, as writing it once. */
  lemma MarketSnapshotIdempotent(snapshots: map<string, MarketSnapshot>, market: Market, timestamp: int, blockNumber: int)
    requires MarketSnapshotsKeyed(snapshots)
    ensures var once := WriteMarketSnapshot(snapshots, market, timestamp, blockNumber);
      WriteMarketSnapshot(once.0, market, timestamp, blockNumber) == once
  {
    MarketSnapshotCoalesces(snapshots, market, market, timestamp, blockNumber, blockNumber);
  }

  lemma PositionSnapshotCoalesces(snapshots: map<string, PositionSnapshot>, first: Position, second: Position,
                                  marketSnapshot1: MarketSnapshot, marketSnapshot2: MarketSnapshot,
                                  timestamp: int, blockNumber1: int, blockNumber2: int)
    requires (forall k :: k in snapshots ==> snapshots[k].id == k) && first.id == second.id
    ensures WritePositionSnapshot(WritePositionSnapshot(snapshots, first, marketSnapshot1, timestamp, blockNumber1).0,
                                  second, marketSnapshot2, timestamp, blockNumber2)
         == WritePositionSnapshot(snapshots, second, marketSnapshot2, timestamp, blockNumber2)
  {
    PositionSnapshotCopies(snapshots, first, marketSnapshot1, timestamp, blockNumber1);
    var once := WritePositionSnapshot(snapshots, first, marketSnapshot1, timestamp, blockNumber1).0;
    PositionSnapshotCopies(once, second, marketSnapshot2, timestamp, blockNumber2);
    PositionSnapshotCopies(snapshots, second, marketSnapshot2, timestamp, blockNumber2);
    var last := WritePositionSnapshot(snapshots, second, marketSnapshot2, timestamp, blockNumber2).1;
    assert once[last.id := last] == snapshots[last.id := last];
  }

  /** A second vault snapshot at the same timestamp supersedes the first. */
  lemma VaultSnapshotCoalesces(snapshots: map<string, VaultSnapshot>, first: Vault, second: Vault,
                               timestamp: int, blockNumber1: int, blockNumber2: int)
    requires VaultSnapshotsKeyed(snapshots) && first.id == second.id
    ensures WriteVaultSnapshot(WriteVaultSnapshot(snapshots, first, timestamp, blockNumber1).0, second, timestamp, blockNumber2)
         == WriteVaultSnapshot(snapshots, second, timestamp, blockNumber2)
  {
    VaultSnapshotCopies(snapshots, first, timestamp, blockNumber1);
    var once := WriteVaultSnapshot(snapshots, first, timestamp, blockNumber1).0;
    assert VaultSnapshotsKeyed(once);
    VaultSnapshotCopies(once, second, timestamp, blockNumber2);
    VaultSnapshotCopies(snapshots, second, timestamp, blockNumber2);
    var last := WriteVaultSnapshot(snapshots, second, timestamp, blockNumber2).1;
    assert once[last.id := last] == snapshots[last.id := last];
  }

  lemma VaultPositionSnapshotCoalesces(snapshots: map<string, VaultPositionSnapshot>, first: VaultPosition, second: VaultPosition,
                                       vaultSnapshot1: VaultSnapshot, vaultSnapshot2: VaultSnapshot,
                                       timestamp: int, blockNumber1: int, blockNumber2: int)
    requires (forall k :: k in snapshots ==> snapshots[k].id == k) && first.id == second.id
    ensures WriteVaultPositionSnapshot(WriteVaultPositionSnapshot(snapshots, first, vaultSnapshot1, timestamp, blockNumber1).0,
                                       second, vaultSnapshot2, timestamp, blockNumber2)
         == WriteVaultPositionSnapshot(snapshots, second, vaultSnapshot2, timestamp, blockNumber2)
  {
    VaultPositionSnapshotCopies(snapshots, first, vaultSnapshot1, timestamp, blockNumber1);
    var once := WriteVaultPositionSnapshot(snapshots, first, vaultSnapshot1, timestamp, blockNumber1).0;
    VaultPositionSnapshotCopies(once, second, vaultSnapshot2, timestamp, blockNumber2);
    VaultPositionSnapshotCopies(snapshots, second, vaultSnapshot2, timestamp, blockNumber2);
    var last := WriteVaultPositionSnapshot(snapshots, second, vaultSnapshot2, timestamp, blockNumber2).1;
    assert once[last.id := last] == snapshots[last.id := last];
  }

  /**
   * Snapshots of other entities or other timestamps are never touched: the
   * snapshot of `(other, otherTimestamp)` survives a write for `(market, timestamp)`.
   */
  lemma MarketSnapshotKeepsOthers(snapshots: map<string, MarketSnapshot>, market: Market, timestamp: int, blockNumber: int,
                                  other: Bytes, otherTimestamp: int)
    requires MarketSnapshotsKeyed(snapshots)
    requires other != market.id || otherTimestamp != timestamp
    requires SnapshotId(other, otherTimestamp) in snapshots
    ensures var written := WriteMarketSnapshot(snapshots, market, timestamp, blockNumber).0;
      written[SnapshotId(other, otherTimestamp)] == snapshots[SnapshotId(other, otherTimestamp)]
  {
    SnapshotIdInjective(market.id, timestamp, other, otherTimestamp);
    MarketSnapshotCopies(snapshots, market, timestamp, blockNumber);
  }

  lemma VaultSnapshotKeepsOthers(snapshots: map<string, VaultSnapshot>, vault: Vault, timestamp: int, blockNumber: int,
                                 other: Bytes, otherTimestamp: int)
    requires VaultSnapshotsKeyed(snapshots)
    requires other != vault.id || otherTimestamp != timestamp
    requires SnapshotId(other, otherTimestamp) in snapshots
    ensures var written := WriteVaultSnapshot(snapshots, vault, timestamp, blockNumber).0;
      written[SnapshotId(other, otherTimestamp)] == snapshots[SnapshotId(other, otherTimestamp)]
  {
    SnapshotIdInjective(vault.id, timestamp, other, otherTimestamp);
    VaultSnapshotCopies(snapshots, vault, timestamp, blockNumber);
  }

  // ---------------------------------------------------------------------------
  // Invariants of the snapshot tables

  /**
   * A market snapshot write keeps the market snapshot table keyed, and every
   * position snapshot and reward program still finds its market snapshot.
   */
  lemma MarketSnapshotKeepsKeyed(s: State, market: Market, timestamp: int, blockNumber: int)
    requires MarketSnapshotsKeyed(s.marketSnapshots)
    requires PositionSnapshotsKeyed(s.positionSnapshots, s.marketSnapshots)
    requires ProgramsKeyed(s.rewardPrograms, s.markets, s.marketSnapshots)
    ensures var (written, snapshot) := WriteMarketSnapshot(s.marketSnapshots, market, timestamp, blockNumber);
      snapshot.id in written &&
      MarketSnapshotsKeyed(written) &&
      PositionSnapshotsKeyed(s.positionSnapshots, written) &&
      ProgramsKeyed(s.rewardPrograms, s.markets, written)
  {
    MarketSnapshotCopies(s.marketSnapshots, market, timestamp, blockNumber);
  }

  /** A position snapshot that links an existing market snapshot keeps the position snapshot table keyed. */
  lemma PositionSnapshotKeepsKeyed(snapshots: map<string, PositionSnapshot>, marketSnapshots: map<string, MarketSnapshot>,
                                   position: Position, marketSnapshot: MarketSnapshot, timestamp: int, blockNumber: int)
    requires PositionSnapshotsKeyed(snapshots, marketSnapshots) && marketSnapshot.id in marketSnapshots
    ensures PositionSnapshotsKeyed(WritePositionSnapshot(snapshots, position, marketSnapshot, timestamp, blockNumber).0, marketSnapshots)
  {
    PositionSnapshotCopies(snapshots, position, marketSnapshot, timestamp, blockNumber);
  }

  /** A vault snapshot write keeps the vault snapshot table keyed, and every vault position snapshot finds its vault snapshot. */
  lemma VaultSnapshotKeepsKeyed(snapshots: map<string, VaultSnapshot>, positionSnapshots: map<string, VaultPositionSnapshot>,
                                vault: Vault, timestamp: int, blockNumber: int)
    requires VaultSnapshotsKeyed(snapshots) && VaultPositionSnapshotsKeyed(positionSnapshots, snapshots)
    ensures var (written, snapshot) := WriteVaultSnapshot(snapshots, vault, timestamp, blockNumber);
      snapshot.id in written && VaultSnapshotsKeyed(written) && VaultPositionSnapshotsKeyed(positionSnapshots, written)
  {
    VaultSnapshotCopies(snapshots, vault, timestamp, blockNumber);
  }

  lemma VaultPositionSnapshotKeepsKeyed(snapshots: map<string, VaultPositionSnapshot>, vaultSnapshots: map<string, VaultSnapshot>,
                                        position: VaultPosition, vaultSnapshot: VaultSnapshot, timestamp: int, blockNumber: int)
    requires VaultPositionSnapshotsKeyed(snapshots, vaultSnapshots) && vaultSnapshot.id in vaultSnapshots
    ensures VaultPositionSnapshotsKeyed(WriteVaultPositionSnapshot(snapshots, position, vaultSnapshot, timestamp, blockNumber).0, vaultSnapshots)
  {
    VaultPositionSnapshotCopies(snapshots, position, vaultSnapshot, timestamp, blockNumber);
  }

  // ---------------------------------------------------------------------------
  // The same writers on the store: each changes its own snapshot table and nothing else

  method SnapshotMarket(store: Store, market: Market, timestamp: int, blockNumber: int) returns (snapshot: MarketSnapshot)
    modifies store
    ensures (store.marketSnapshots, snapshot) == WriteMarketSnapshot(old(store.marketSnapshots), market, timestamp, blockNumber)
    ensures store.Model() == old(store.Model()).(marketSnapshots := store.marketSnapshots)
  {
    var id := SnapshotId(market.id, timestamp);
    if id in store.marketSnapshots {
      snapshot := store.marketSnapshots[id];
    } else {
      snapshot := MarketSnapshot(id, [], 0, 0, 0, 0, 0, 0, 0);
    }
    snapshot := snapshot.(market := market.id,
                          totalSupplyShares := market.totalSupplyShares,
                          totalSupplyAssets := market.totalSupplyAssets,
                          totalBorrowShares := market.totalBorrowShares,
                          totalBorrowAssets := market.totalBorrowAssets,
                          totalCollateral := market.totalCollateral,
                          timestamp := timestamp,
                          blockNumber := blockNumber);
    store.marketSnapshots := store.marketSnapshots[snapshot.id := snapshot];
  }

  method SnapshotPosition(store: Store, position: Position, marketSnapshot: MarketSnapshot, timestamp: int, blockNumber: int)
    returns (snapshot: PositionSnapshot)
    modifies store
    ensures (store.positionSnapshots, snapshot) == WritePositionSnapshot(old(store.positionSnapshots), position, marketSnapshot, timestamp, blockNumber)
    ensures store.Model() == old(store.Model()).(positionSnapshots := store.positionSnapshots)
  {
    var id := SnapshotId(position.id, timestamp);
    if id in store.positionSnapshots {
      snapshot := store.positionSnapshots[id];
    } else {
      snapshot := PositionSnapshot(id, [], ZeroAddress, "", 0, 0, 0, 0, 0);
    }
    snapshot := snapshot.(position := position.id,
                          user := position.user,
                          marketSnapshot := marketSnapshot.id,
                          supplyShares := position.supplyShares,
                          borrowShares := position.borrowShares,
                          collateral := position.collateral,
                          timestamp := timestamp,
                          blockNumber := blockNumber);
    store.positionSnapshots := store.positionSnapshots[snapshot.id := snapshot];
  }

  method SnapshotVault(store: Store, vault: Vault, timestamp: int, blockNumber: int) returns (snapshot: VaultSnapshot)
    modifies store
    ensures (store.vaultSnapshots, snapshot) == WriteVaultSnapshot(old(store.vaultSnapshots), vault, timestamp, blockNumber)
    ensures store.Model() == old(store.Model()).(vaultSnapshots := store.vaultSnapshots)
  {
    var id := SnapshotId(vault.id, timestamp);
    if id in store.vaultSnapshots {
      snapshot := store.vaultSnapshots[id];
    } else {
      snapshot := VaultSnapshot(id, ZeroAddress, None, 0, 0, 0, 0);
    }
    snapshot := snapshot.(vault := vault.id,
                          feeRecipient := vault.feeRecipient,
                          totalShares := vault.totalShares,
                          totalAssets := vault.totalAssets,
                          timestamp := timestamp,
                          blockNumber := blockNumber);
    store.vaultSnapshots := store.vaultSnapshots[snapshot.id := snapshot];
  }

  method SnapshotVaultPosition(store: Store, position: VaultPosition, vaultSnapshot: VaultSnapshot, timestamp: int, blockNumber: int)
    returns (snapshot: VaultPositionSnapshot)
    modifies store
    ensures (store.vaultPositionSnapshots, snapshot)
         == WriteVaultPositionSnapshot(old(store.vaultPositionSnapshots), position, vaultSnapshot, timestamp, blockNumber)
    ensures store.Model() == old(store.Model()).(vaultPositionSnapshots := store.vaultPositionSnapshots)
  {
    var id := SnapshotId(position.id, timestamp);
    if id in store.vaultPositionSnapshots {
      snapshot := store.vaultPositionSnapshots[id];
    } else {
      snapshot := VaultPositionSnapshot(id, "", ZeroAddress, 0, 0, 0);
    }
    snapshot := snapshot.(vaultSnapshot := vaultSnapshot.id,
                          user := position.user,
                          shares := position.shares,
                          timestamp := timestamp,
                          blockNumber := blockNumber);
    store.vaultPositionSnapshots := store.vaultPositionSnapshots[snapshot.id := snapshot];
  }
}
