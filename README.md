# Morpho rewards hub subgraph: the accounting core

A model of the accounting engine of the `morpho-rewards-hub-lite` subgraph. The engine is an event-sourced indexer. It folds an ordered stream of lending-protocol (Morpho Blue), vault (MetaMorpho) and reward-registry events into a store of records: `Market`, `Position`, `User`, `Vault`, `VaultPosition`, the two transaction ledgers (`MorphoTx`, `VaultTx`), four kinds of snapshot, and `RewardProgram`.

The model has two layers for each handler file.

- **Model functions.** A pure function takes a `State` (every table as a `map` from id to record) and returns the store after the handler, as `Result<State>`. `Fatal` models `log.critical`, which aborts indexing.
- **Handler methods.** An imperative method works on a `Storage.Store` class. The class has one `map` field per entity table, which the method reassigns in place. Each method is proved to leave the store equal to its model function's result.

The properties are proved about the model functions. They cover:

- **Per-type effects.** What each ledger entry and each event adds to which total and which position, exactly, with every other record unchanged.
- **Failure.** When a handler fails: an unknown market or vault, or an interest accrual that mints fee shares while no fee recipient is set (`handlers/vault.ts:25-28` for vaults, the same rule for markets); nothing else.
- **Id derivation.** `scope ++ user` position ids, `<hex>-<decimal>` snapshot ids and transfer id suffixes are injective and decodable.
- **Snapshot coalescing.** A second write at the same timestamp supersedes the first.
- **Well-formedness.** `Schema.Valid` holds throughout: every record is stored under its own id, and every reference points at an existing record.
- **Conservation.** `Schema.Conserved` holds throughout: each market's supply-share, borrow-share and collateral totals, and each vault's share total, equal the sum over their positions.
- **Borrow assets.** `Schema.BorrowAssetsNonNegative` holds throughout: no market's borrow assets drop below zero. BORROW entries go through the zero floor (`handleMorphoTx.ts:19-23`); ACCRUE_INTEREST adds to them unclamped (`handleMorphoTx.ts:31`), so the invariant rests on the accrual handlers adding natural interest and fee entries without assets.
- **Whole streams.** The last three invariants hold for any stream of events, through `Indexer.EventsPreserveInvariants`.

Modules:

- `Ids`: byte strings, addresses, ids.
- `Schema`: records and invariants.
- `Sums`: sums over a table.
- `Storage`: the store.
- `Initializers`: `initializers.ts`.
- `Snapshots`: `snapshots.ts`.
- `MorphoLedger`: `handleMorphoTx.ts`.
- `VaultLedger`: `handleVaultTx.ts`.
- `VaultHandlers`: `handlers/vault.ts`.
- `MorphoHandlers`: the lending-protocol handlers. Their source file is not part of this model, so they are reconstructed from `apps/subgraph/tests/morpho.test.ts`.
- `RewardPrograms`: `handlers/reward-program.ts`.
- `VaultFactory`: `handlers/vault-factory.ts`.
- `Indexer`: routes each event to its handler.

Three behaviours of the code a reader might not expect, which the model keeps:

- **Vault accrual snapshot.** A vault interest accrual snapshots the vault even when it mints no fee shares: the code (`handlers/vault.ts:18-23`) assigns the new asset total and snapshots the vault before it looks at the fee shares.
- **Vault accrual without a fee recipient.** Fee shares minted while no fee recipient is set are not skipped quietly: the code logs a critical error (`handlers/vault.ts:25-28`), which graph-node treats as a fatal indexing error, so the model returns `Fatal`.
- **Withdrawn collateral that is a vault.** The owner's vault shares do not stay put: the test `morpho.test.ts:934-940` shows them moved to the receiver.

Assumptions of the reconstruction of the lending-protocol handlers:

- **Ledger entries.** Withdraw and Repay are recorded as SUPPLY and BORROW entries with both amounts negated. Collateral entries carry zero shares.
- **Interest.** It is added to the market's supply and borrow assets directly. The fee shares become one ACCRUE_INTEREST entry with zero assets.
- **Fee with no recipient.** A nonzero fee with no recipient set is `Fatal`, as in the vault handler.
- **Collateral that is a vault.** Its shares move with a two-sided vault transfer, after the market entry:
  - on supply, from the caller to the beneficiary;
  - on withdrawal, from the owner to the receiver.

  This happens only when the market's collateral token is a known vault. Otherwise nothing on the vault side changes (`morpho.test.ts:155-201`).

## Model

| member | source | states |
|---|---|---|
| Ids.ToHexString | apps/subgraph/src/snapshots.ts:19 | Model function of `Bytes.toHexString`: `0x` and two lowercase hex digits per byte; `Ids.HexRoundTrip` and `Ids.HexHasNoDash` state what it guarantees |
| Ids.DecimalString | apps/subgraph/src/snapshots.ts:19 | Model function of `BigInt.toString`: an optional minus sign and the decimal digits; `Ids.DecimalRoundTrip` states that it parses back |
| Ids.SnapshotId | apps/subgraph/src/snapshots.ts:19 | Model function of the snapshot id `<hex id>-<timestamp>`; `Ids.SnapshotIdRoundTrip` and `Ids.SnapshotIdInjective` state that it decodes and is one per (entity, timestamp) |
| Ids.ScopedIdInjective | apps/subgraph/src/initializers.ts:31 | Two `scope ++ address` ids are equal exactly when both scopes and both addresses are equal (addresses are 20 bytes), so each (market or vault, user) pair has its own position |
| Ids.FromI32 | apps/subgraph/src/handlers/vault.ts:80 | `Bytes.fromI32` yields four bytes; a value below 256 is that byte followed by three zero bytes (little-endian) |
| Ids.TransferTxIdsDistinct | apps/subgraph/src/handlers/vault.ts:80-99 | The two halves of a transfer (`logId ++ fromI32(1)`, `logId ++ fromI32(2)`) never share an id, and neither equals the bare log id |
| Ids.HexRoundTrip | apps/subgraph/src/snapshots.ts:19 | The hex rendering of an entity id parses back to the same bytes |
| Ids.HexHasNoDash | apps/subgraph/src/snapshots.ts:19 | A hex rendering holds no dash, so the first dash of a snapshot id separates entity from timestamp |
| Ids.NatDigitsRoundTrip | apps/subgraph/src/snapshots.ts:19 | The decimal digits of a timestamp parse back to it |
| Ids.DecimalRoundTrip | apps/subgraph/src/snapshots.ts:19 | A signed decimal rendering parses back to the same integer |
| Ids.SnapshotIdRoundTrip | apps/subgraph/src/snapshots.ts:19 | A snapshot id `<hex id>-<timestamp>` decodes back to the entity id and timestamp |
| Ids.SnapshotIdInjective | apps/subgraph/src/snapshots.ts:19 | Two snapshot ids are equal exactly when entity and timestamp are equal: at most one snapshot per (entity, timestamp) |
| Initializers.WithUser | apps/subgraph/src/initializers.ts:21-28 | Model function of `setupUser`: the user registry with the address in it; `Initializers.SetupUserIdempotent` states its properties |
| Initializers.WithPosition | apps/subgraph/src/initializers.ts:30-46 | Model function of `setupPosition`: load the position under `market ++ user` or store a zero one and register the user; `Initializers.SetupPositionResult`, `SetupPositionLoadOrCreate` and `SetupPositionIdempotent` state its properties |
| Initializers.WithVaultPosition | apps/subgraph/src/initializers.ts:57-75 | Model function of `setupVaultPosition`: fatal on an unknown vault when the position is new, otherwise load or store a zero-share position and register the user; `Initializers.SetupVaultPositionResult` and its neighbours state its properties |
| Initializers.GetMarket | apps/subgraph/src/initializers.ts:11-19 | Succeeds exactly when the market is stored, returning the stored record; an absent market is fatal, never fabricated |
| Initializers.SetupVault | apps/subgraph/src/initializers.ts:48-55 | Succeeds exactly when the vault is stored, returning the stored record; an absent vault is fatal |
| Initializers.SetupUserIdempotent | apps/subgraph/src/initializers.ts:21-28 | Setting up a user twice equals once; only the user registry grows; an existing user leaves the store unchanged |
| Initializers.SetupPositionResult | apps/subgraph/src/initializers.ts:30-46 | The position returned is stored under `market ++ user`, names that market and user, is the stored record or a zero one, and only the position table and user registry change |
| Initializers.PositionOrZeroFields | apps/subgraph/src/initializers.ts:30-45 | A stored position under `market ++ user` belongs to that market and user; a new one has zero supply shares, borrow shares and collateral |
| Initializers.SetupPositionLoadOrCreate | apps/subgraph/src/initializers.ts:32-45 | An existing position is returned unchanged and nothing is written; a new one starts at zero balances |
| Initializers.SetupPositionIdempotent | apps/subgraph/src/initializers.ts:30-46 | Running setupPosition a second time changes nothing and returns the same record |
| Initializers.SetupVaultPositionResult | apps/subgraph/src/initializers.ts:57-75 | Fails exactly when the vault is unknown; otherwise returns the stored record or a zero-share one under `vault ++ user` and registers the user |
| Initializers.SetupVaultPositionLoadOrCreate | apps/subgraph/src/initializers.ts:61-74 | An existing vault position is returned with the store unchanged; a new one (vault present) has zero shares |
| Initializers.SetupVaultPositionIdempotent | apps/subgraph/src/initializers.ts:57-75 | Running setupVaultPosition a second time changes nothing |
| Initializers.SetupUserPreservesValid | apps/subgraph/src/initializers.ts:21-28 | Registering a user keeps the store well formed |
| Initializers.SetupPositionPreservesValid | apps/subgraph/src/initializers.ts:30-46 | Creating a position for an existing market keeps the store well formed |
| Initializers.SetupVaultPositionPreservesValid | apps/subgraph/src/initializers.ts:57-75 | Creating a vault position keeps the store well formed |
| Initializers.SetupPositionPreservesConserved | apps/subgraph/src/initializers.ts:38-40 | A fresh zero position keeps every market total equal to the sum over its positions |
| Initializers.SetupVaultPositionPreservesConserved | apps/subgraph/src/initializers.ts:70 | A fresh zero-share vault position keeps every vault total equal to the sum over its positions |
| Initializers.SetupUser | apps/subgraph/src/initializers.ts:21-28 | The store method returns the address and leaves the store as the registry function says |
| Initializers.SetupPosition | apps/subgraph/src/initializers.ts:30-46 | The store method writes and returns what `WithPosition` describes |
| Initializers.SetupVaultPosition | apps/subgraph/src/initializers.ts:57-75 | The store method fails as `WithVaultPosition` does, leaves the store unchanged on failure, and otherwise writes what it describes |
| Snapshots.WriteMarketSnapshot | apps/subgraph/src/snapshots.ts:14-37 | Model function of `snapshotMarket`: the snapshot table and the snapshot written; `Snapshots.MarketSnapshotCopies` and `MarketSnapshotCoalesces` state its properties |
| Snapshots.WritePositionSnapshot | apps/subgraph/src/snapshots.ts:39-63 | Model function of `snapshotPosition`; `Snapshots.PositionSnapshotCopies` and `PositionSnapshotCoalesces` state its properties |
| Snapshots.WriteVaultSnapshot | apps/subgraph/src/snapshots.ts:65-86 | Model function of `snapshotVault`; `Snapshots.VaultSnapshotCopies` and `VaultSnapshotCoalesces` state its properties |
| Snapshots.WriteVaultPositionSnapshot | apps/subgraph/src/snapshots.ts:88-109 | Model function of `snapshotVaultPosition`; `Snapshots.VaultPositionSnapshotCopies` and `VaultPositionSnapshotCoalesces` state its properties |
| Snapshots.MarketSnapshotCopies | apps/subgraph/src/snapshots.ts:14-37 | The market snapshot stored under `<market>-<timestamp>` copies all five market totals and records the timestamp and block number; no other snapshot changes |
| Snapshots.PositionSnapshotCopies | apps/subgraph/src/snapshots.ts:39-63 | A position snapshot copies supply shares, borrow shares, collateral and user, and links the given market snapshot |
| Snapshots.VaultSnapshotCopies | apps/subgraph/src/snapshots.ts:65-86 | A vault snapshot copies fee recipient, total shares and total assets |
| Snapshots.VaultPositionSnapshotCopies | apps/subgraph/src/snapshots.ts:88-109 | A vault position snapshot copies shares and user and links the given vault snapshot |
| Snapshots.MarketSnapshotCoalesces | apps/subgraph/src/snapshots.ts:21-35 | A second market snapshot at the same timestamp supersedes the first: the table is as if only the second were written |
| Snapshots.MarketSnapshotIdempotent | apps/subgraph/src/snapshots.ts:21-35 | Writing the same market state twice at one timestamp leaves one identical record |
| Snapshots.PositionSnapshotCoalesces | apps/subgraph/src/snapshots.ts:47-61 | A second position snapshot at the same timestamp supersedes the first |
| Snapshots.VaultSnapshotCoalesces | apps/subgraph/src/snapshots.ts:72-84 | A second vault snapshot at the same timestamp supersedes the first |
| Snapshots.VaultPositionSnapshotCoalesces | apps/subgraph/src/snapshots.ts:96-107 | A second vault position snapshot at the same timestamp supersedes the first |
| Snapshots.MarketSnapshotKeepsOthers | apps/subgraph/src/snapshots.ts:14-37 | A market snapshot write leaves every snapshot under another id as it was |
| Snapshots.VaultSnapshotKeepsOthers | apps/subgraph/src/snapshots.ts:65-86 | A vault snapshot write leaves every snapshot under another id as it was |
| Snapshots.MarketSnapshotKeepsKeyed | apps/subgraph/src/snapshots.ts:14-37 | After a market snapshot write the snapshot is stored, and the snapshot and program tables stay keyed |
| Snapshots.PositionSnapshotKeepsKeyed | apps/subgraph/src/snapshots.ts:39-63 | A position snapshot linking an existing market snapshot keeps its table keyed |
| Snapshots.VaultSnapshotKeepsKeyed | apps/subgraph/src/snapshots.ts:65-86 | A vault snapshot write keeps the vault snapshot table keyed and every vault position snapshot's link valid |
| Snapshots.VaultPositionSnapshotKeepsKeyed | apps/subgraph/src/snapshots.ts:88-109 | A vault position snapshot linking an existing vault snapshot keeps its table keyed |
| Snapshots.SnapshotMarket | apps/subgraph/src/snapshots.ts:14-37 | The store method writes exactly the table `WriteMarketSnapshot` describes and touches no other table, so the market itself is not modified |
| Snapshots.SnapshotPosition | apps/subgraph/src/snapshots.ts:39-63 | Same, for position snapshots |
| Snapshots.SnapshotVault | apps/subgraph/src/snapshots.ts:65-86 | Same, for vault snapshots |
| Snapshots.SnapshotVaultPosition | apps/subgraph/src/snapshots.ts:88-109 | Same, for vault position snapshots |
| MorphoLedger.ZeroFloorPlus | apps/subgraph/src/handleMorphoTx.ts:19-23 | The result is never negative, never below the sum, and is either the sum or zero |
| MorphoLedger.ApplyMorphoTx | apps/subgraph/src/handleMorphoTx.ts:11-32 | Model function of the per-type deltas; `MorphoLedger.SupplyTxEffect`, `BorrowTxEffect`, `CollateralTxEffect`, `AccrueInterestTxEffect` and `ApplyMorphoTxBalances` state them |
| MorphoLedger.AfterMorphoTx | apps/subgraph/src/handleMorphoTx.ts:7-49 | Model function of `handleMorphoTx`; `MorphoLedger.MorphoTxShape`, `MorphoTxResult` and `MorphoTxSnapshots` state what it does |
| MorphoLedger.MorphoTxShape | apps/subgraph/src/handleMorphoTx.ts:7-49 | An entry on a known market replaces the market and the acting position by their updated copies, registers the user, writes both snapshots and changes nothing else |
| MorphoLedger.MorphoTxResult | apps/subgraph/src/handleMorphoTx.ts:7-49 | An entry fails exactly when its market is unknown; otherwise only the market, the acting position (stored or zero) and the user registry change among entities, and no vault, ledger or program record changes |
| MorphoLedger.SupplyTxEffect | apps/subgraph/src/handleMorphoTx.ts:12-15 | SUPPLY adds the shares to the position's and market's supply shares and the assets to the supply assets; borrow and collateral fields unchanged |
| MorphoLedger.BorrowTxEffect | apps/subgraph/src/handleMorphoTx.ts:16-23 | BORROW adds the shares to both borrow-share fields and sets the borrow assets to the zero-floored sum, never negative |
| MorphoLedger.CollateralTxEffect | apps/subgraph/src/handleMorphoTx.ts:24-26 | COLLATERAL adds the assets to the position's and market's collateral; every share and asset total unchanged |
| MorphoLedger.AccrueInterestTxEffect | apps/subgraph/src/handleMorphoTx.ts:27-31 | ACCRUE_INTEREST credits the shares to the position and market supply shares and adds the same assets, unfloored, to both asset totals |
| MorphoLedger.MorphoTxKeepsOtherPositions | apps/subgraph/src/handleMorphoTx.ts:9 | Every position other than the acting one is unchanged |
| MorphoLedger.MorphoTxSnapshots | apps/subgraph/src/handleMorphoTx.ts:34-45 | Both snapshots are taken after the deltas at the entry's timestamp, with the updated values, and the position snapshot links the market snapshot of the same entry |
| MorphoLedger.ApplyMorphoTxBalances | apps/subgraph/src/handleMorphoTx.ts:11-32 | Every per-type delta moves a market's share and collateral totals by exactly what it moves the position's |
| MorphoLedger.MorphoTxPreservesConserved | apps/subgraph/src/handleMorphoTx.ts:7-49 | Every entry keeps each market's share and collateral totals equal to the sums over its positions |
| MorphoLedger.MorphoTxPreservesValid | apps/subgraph/src/handleMorphoTx.ts:7-49 | Every entry keeps the store well formed |
| MorphoLedger.MorphoTxKeepsBorrowAssets | apps/subgraph/src/handleMorphoTx.ts:16-31 | Every entry other than an ACCRUE_INTEREST entry with negative assets keeps every market's borrow assets non-negative: BORROW goes through the zero floor, SUPPLY and COLLATERAL do not touch them |
| MorphoLedger.NegativeAccrualBreaksBorrowAssets | apps/subgraph/src/handleMorphoTx.ts:27-31 | That exception is real: ACCRUE_INTEREST adds its assets unclamped, so a negative amount larger than the borrow assets leaves them below zero |
| MorphoLedger.HandleMorphoTx | apps/subgraph/src/handleMorphoTx.ts:7-49 | The in-place handler fails as the model function does, leaves the store unchanged on failure, and otherwise leaves it equal to the model result |
| VaultLedger.AfterVaultTx | apps/subgraph/src/handleVaultTx.ts:6-26 | Model function of `handleVaultTx`; `VaultLedger.VaultTxShape`, `VaultTxResult` and `VaultTxSnapshots` state what it does |
| VaultLedger.VaultTxShape | apps/subgraph/src/handleVaultTx.ts:6-26 | An entry on a known vault replaces the vault and the acting vault position by their updated copies, registers the user, writes both snapshots and changes nothing else |
| VaultLedger.VaultTxResult | apps/subgraph/src/handleVaultTx.ts:6-26 | Fails exactly when the vault is unknown; otherwise vault shares and assets grow by exactly the deltas, the acting position (zero if new) by exactly the share delta, and no other vault, position, market or ledger record changes |
| VaultLedger.VaultTxKeepsOtherPositions | apps/subgraph/src/handleVaultTx.ts:8-16 | No vault position other than the acting one changes |
| VaultLedger.VaultTxSnapshots | apps/subgraph/src/handleVaultTx.ts:13-22 | The vault snapshot is taken after the vault update, the position snapshot after the position update, and the latter links the former |
| VaultLedger.VaultTxPreservesConserved | apps/subgraph/src/handleVaultTx.ts:10-15 | Every entry keeps each vault's share total equal to the sum of its positions' shares |
| VaultLedger.VaultTxPreservesValid | apps/subgraph/src/handleVaultTx.ts:6-26 | Every entry keeps the store well formed |
| VaultLedger.HandleVaultTx | apps/subgraph/src/handleVaultTx.ts:6-26 | The in-place handler fails as the model function does, leaves the store unchanged on failure, and otherwise leaves it equal to the model result |
| VaultHandlers.AfterRecordVaultTx | apps/subgraph/src/handlers/vault.ts:53-68 | Model function of the recording step every vault handler repeats (vault lookup, user and position set-up, save, `handleVaultTx`); `VaultHandlers.RecordVaultTxResult` and its neighbours state its properties |
| VaultHandlers.AfterDeposit | apps/subgraph/src/handlers/vault.ts:50-69 | Model function of `handleDeposit`; `VaultHandlers.DepositFails`, `DepositRecordsEntry` and `DepositCredits` state it |
| VaultHandlers.AfterWithdraw | apps/subgraph/src/handlers/vault.ts:139-158 | Model function of `handleWithdraw`; `VaultHandlers.WithdrawFails`, `WithdrawRecordsEntry` and `WithdrawDebitsOwner` state it |
| VaultHandlers.AfterTransferEntity | apps/subgraph/src/handlers/vault.ts:71-117 | Model function of `handleTransferEntity`; `VaultHandlers.TransferEntityFails`, `TransferEntityMovesShares` and `TransferEntityRecordsEntries` state it |
| VaultHandlers.SkippedTransfer | apps/subgraph/src/handlers/vault.ts:121-128 | The transfers `handleTransfer` skips: from or to the zero address or the lending protocol; `VaultHandlers.TransferFails` states the effect |
| VaultHandlers.AfterTransfer | apps/subgraph/src/handlers/vault.ts:119-137 | Model function of `handleTransfer`; `VaultHandlers.TransferFails` states it |
| VaultHandlers.AfterAccrueInterest | apps/subgraph/src/handlers/vault.ts:17-48 | Model function of `handleAccrueInterest`; `VaultHandlers.AccrueInterestFails`, `AccrueInterestSetsTotals`, `AccrueInterestSnapshotsVault`, `AccrueInterestWithoutFee` and `AccrueInterestPaysFee` state it |
| VaultHandlers.AfterSetFeeRecipient | apps/subgraph/src/handlers/vault.ts:160-164 | Model function of `handleSetFeeRecipient`; `VaultHandlers.SetFeeRecipientResult` states its whole result |
| VaultHandlers.RecordVaultTxSetup | apps/subgraph/src/handlers/vault.ts:53-68 | The handler's own user and position set-up before the ledger amounts to registering the user and storing the position (stored or zero) |
| VaultHandlers.VaultTxAfterSetup | apps/subgraph/src/handlers/vault.ts:53-68 | Setting up the user and position before the ledger changes nothing the ledger would not do itself |
| VaultHandlers.RecordVaultTxIsSaveThenApply | apps/subgraph/src/handlers/vault.ts:53-68 | Recording an entry for a known vault is saving it and applying the vault ledger |
| VaultHandlers.RecordVaultTxShape | apps/subgraph/src/handlers/vault.ts:53-68 | Recording an entry for a known vault yields the store with the updated vault and acting position, the user registered, the entry saved and the two snapshots written, and nothing else changed |
| VaultHandlers.RecordVaultTxLeavesMarketSide | apps/subgraph/src/handleVaultTx.ts:6-26 | A vault entry changes no market, position, market entry, market or position snapshot, reward program or protocol fee recipient |
| VaultHandlers.RecordVaultTxResult | apps/subgraph/src/handlers/vault.ts:53-68 | Fails exactly when the vault is unknown; otherwise the entry is saved, the vault and acting position move by exactly its deltas, and no market-side record changes |
| VaultHandlers.RecordVaultTxFails | apps/subgraph/src/handlers/vault.ts:54 | Recording fails exactly when the vault is unknown, in any store |
| VaultHandlers.RecordVaultTxVaults | apps/subgraph/src/handleVaultTx.ts:10-11 | The entry's vault moves by exactly its deltas; no other vault changes |
| VaultHandlers.RecordVaultTxPositions | apps/subgraph/src/handleVaultTx.ts:15 | The acting position (zero when new) moves by exactly the share delta; no other position changes |
| VaultHandlers.RecordVaultTxLeavesPosition | apps/subgraph/src/handleVaultTx.ts:8-16 | Any other vault position keeps its presence and value |
| VaultHandlers.RecordVaultTxSaves | apps/subgraph/src/handlers/vault.ts:53-66 | The entry is saved under its id and its user registered |
| VaultHandlers.RecordVaultTxPreservesValid | apps/subgraph/src/handlers/vault.ts:53-68 | Recording keeps the store well formed |
| VaultHandlers.RecordVaultTxPreservesConserved | apps/subgraph/src/handlers/vault.ts:53-68 | Recording keeps every vault balanced |
| VaultHandlers.DepositFails | apps/subgraph/src/handlers/vault.ts:50-54 | A deposit fails exactly when the vault is unknown |
| VaultHandlers.DepositRecordsEntry | apps/subgraph/src/handlers/vault.ts:50-68 | A deposit saves one entry under the log id for the owner and registers the owner |
| VaultHandlers.DepositCredits | apps/subgraph/src/handlers/vault.ts:56-59 | A deposit adds exactly +shares and +assets to the vault and +shares to the owner's position (zero when new) |
| VaultHandlers.WithdrawFails | apps/subgraph/src/handlers/vault.ts:139-143 | A withdrawal fails exactly when the vault is unknown |
| VaultHandlers.WithdrawRecordsEntry | apps/subgraph/src/handlers/vault.ts:139-157 | A withdrawal saves one entry with negated amounts under the log id for the owner |
| VaultHandlers.WithdrawDebitsOwner | apps/subgraph/src/handlers/vault.ts:145-148 | A withdrawal subtracts exactly the shares and assets from the vault and the shares from the owner's position |
| VaultHandlers.WithdrawLeavesReceiver | apps/subgraph/src/handlers/vault.ts:145 | The receiver's position, when it is not the owner, is left alone |
| VaultHandlers.WithdrawAllEmptiesPosition | apps/subgraph/tests/vault.test.ts:296-304 | Withdrawing all of a stored position's shares from a known vault succeeds and leaves the position at zero shares |
| VaultHandlers.RecordPairFails | apps/subgraph/src/handlers/vault.ts:80-116 | Two entries on one vault fail exactly when the vault is unknown |
| VaultHandlers.RecordPairMoves | apps/subgraph/src/handlers/vault.ts:80-116 | Two entries for two holders move the vault by both deltas and each holder's position by its own |
| VaultHandlers.RecordPairSaves | apps/subgraph/src/handlers/vault.ts:95-114 | Both entries are saved and both users registered |
| VaultHandlers.RecordPairLeavesOthers | apps/subgraph/src/handlers/vault.ts:80-116 | No position other than the two acting ones changes |
| VaultHandlers.RecordPairPreservesValid | apps/subgraph/src/handlers/vault.ts:80-116 | Two entries keep the store well formed |
| VaultHandlers.RecordPairPreservesConserved | apps/subgraph/src/handlers/vault.ts:80-116 | Two entries keep every vault balanced |
| VaultHandlers.TransferEntityFails | apps/subgraph/src/handlers/vault.ts:78-83 | A self-transfer leaves the store unchanged; any other fails exactly when the vault is unknown |
| VaultHandlers.TransferEntityMovesShares | apps/subgraph/src/handlers/vault.ts:87-106 | The sender loses and the receiver gains exactly the shares (each from zero when new); vault totals unchanged |
| VaultHandlers.TransferEntityRecordsEntries | apps/subgraph/src/handlers/vault.ts:80-114 | Two entries are saved under two distinct ids `logId ++ 1` and `logId ++ 2`, and both holders registered |
| VaultHandlers.TransferEntityLeavesOthers | apps/subgraph/src/handlers/vault.ts:71-117 | Every third holder's vault position is untouched |
| VaultHandlers.TransferEntityLeavesMarkets | apps/subgraph/src/handlers/vault.ts:71-117 | No market, position, market ledger entry, market snapshot or program changes |
| VaultHandlers.TransferEntityPreservesValid | apps/subgraph/src/handlers/vault.ts:71-117 | A transfer keeps the store well formed |
| VaultHandlers.TransferEntityPreservesConserved | apps/subgraph/src/handlers/vault.ts:71-117 | A transfer keeps every vault balanced |
| VaultHandlers.TransferFails | apps/subgraph/src/handlers/vault.ts:119-137 | Mint, burn, transfers into or out of the protocol and self-transfers leave the store unchanged; others fail exactly when the vault is unknown |
| VaultHandlers.WithTotalAssetsPreservesValid | apps/subgraph/src/handlers/vault.ts:18-21 | Assigning the asset total and snapshotting keeps the store well formed |
| VaultHandlers.WithTotalAssetsPreservesConserved | apps/subgraph/src/handlers/vault.ts:18-21 | Assigning the asset total keeps every vault balanced |
| VaultHandlers.AccrueInterestFails | apps/subgraph/src/handlers/vault.ts:17-28 | An accrual fails exactly when the vault is unknown, or fee shares are minted with no fee recipient |
| VaultHandlers.AccrueInterestSetsTotals | apps/subgraph/src/handlers/vault.ts:18-21 | The asset total becomes the reported one (an assignment, not a delta); the share total grows by the fee shares; the fee recipient is kept |
| VaultHandlers.AccrueInterestWithoutFee | apps/subgraph/src/handlers/vault.ts:18-23 | Without fee shares no entry, no vault position, no position snapshot and no user is written; the vault snapshot table is the one `snapshotVault` writes for the vault with the new asset total |
| VaultHandlers.AccrueInterestSnapshotsVault | apps/subgraph/src/handlers/vault.ts:18-47 | Every successful accrual leaves exactly one new or overwritten vault snapshot, under `<vault>-<timestamp>`, holding the reported asset total, the share total grown by the fee shares, the fee recipient, the timestamp and the block; every other vault snapshot is kept |
| VaultHandlers.AccrueInterestPaysFee | apps/subgraph/src/handlers/vault.ts:30-47 | With fee shares one entry is saved under the log id, crediting the fee shares to the recipient's position (zero when new) |
| VaultHandlers.AccrueInterestPreservesValid | apps/subgraph/src/handlers/vault.ts:17-48 | An accrual keeps the store well formed |
| VaultHandlers.AccrueInterestPreservesConserved | apps/subgraph/src/handlers/vault.ts:17-48 | An accrual keeps every vault balanced |
| VaultHandlers.AccrueInterestLeavesMarkets | apps/subgraph/src/handlers/vault.ts:17-48 | A vault accrual changes no market |
| VaultHandlers.SetFeeRecipientResult | apps/subgraph/src/handlers/vault.ts:160-164 | Fails exactly when the vault is unknown; otherwise the new store is the old one with only that vault's fee recipient replaced and the recipient registered: no entry, position or snapshot, vault side or market side, is written |
| VaultHandlers.SetFeeRecipientPreservesValid | apps/subgraph/src/handlers/vault.ts:160-164 | Setting the fee recipient keeps the store well formed |
| VaultHandlers.SetFeeRecipientPreservesConserved | apps/subgraph/src/handlers/vault.ts:160-164 | Setting the fee recipient keeps every vault balanced |
| VaultHandlers.FeeRecipientReceivesFees | apps/subgraph/src/handlers/vault.ts:25-47 | Once a fee recipient is set, an accrual with fee shares succeeds and records its entry for that recipient |
| VaultHandlers.RecordVaultTx | apps/subgraph/src/handlers/vault.ts:53-68 | The recording step on the store fails as the model function does, leaves the store unchanged on failure, and otherwise equals the model result |
| VaultHandlers.HandleDeposit | apps/subgraph/src/handlers/vault.ts:50-69 | `handleDeposit` on the store matches its model function, unchanged on failure |
| VaultHandlers.HandleWithdraw | apps/subgraph/src/handlers/vault.ts:139-158 | `handleWithdraw` on the store matches its model function, unchanged on failure |
| VaultHandlers.HandleTransferEntity | apps/subgraph/src/handlers/vault.ts:71-117 | `handleTransferEntity` on the store matches its model function, unchanged on failure: the vault lookup of the first entry fails before anything is written, and once it succeeds the second cannot fail |
| VaultHandlers.HandleTransfer | apps/subgraph/src/handlers/vault.ts:119-137 | `handleTransfer` on the store matches its model function, unchanged on failure |
| VaultHandlers.HandleAccrueInterest | apps/subgraph/src/handlers/vault.ts:17-48 | `handleAccrueInterest` on the store matches its model function |
| VaultHandlers.HandleSetFeeRecipient | apps/subgraph/src/handlers/vault.ts:160-164 | `handleSetFeeRecipient` on the store matches its model function, unchanged on failure |
| MorphoHandlers.AfterSupply | apps/subgraph/tests/morpho.test.ts:331-435 | Model function of the supply handler (one SUPPLY entry, then `handleMorphoTx`); `MorphoHandlers.SupplyCredits` states it |
| MorphoHandlers.AfterWithdraw | apps/subgraph/tests/morpho.test.ts:436-500 | Model function of the withdraw handler; `MorphoHandlers.WithdrawDebits` states it |
| MorphoHandlers.AfterBorrow | apps/subgraph/tests/morpho.test.ts:501-630 | Model function of the borrow handler; `MorphoHandlers.BorrowCharges` states it |
| MorphoHandlers.AfterRepay | apps/subgraph/tests/morpho.test.ts:631-692 | Model function of the repay handler; `MorphoHandlers.RepayReduces` states it |
| MorphoHandlers.AfterCollateralBridge | apps/subgraph/tests/morpho.test.ts:761-821 | Model function of the vault-share move that follows collateral when the collateral token is a known vault; `MorphoHandlers.CollateralBridgeMovesShares` and `CollateralBridgeSkips` state it |
| MorphoHandlers.AfterSupplyCollateral | apps/subgraph/tests/morpho.test.ts:155-263 | Model function of the supply-collateral handler; `MorphoHandlers.SupplyCollateralCredits` and `SupplyCollateralMovesVaultShares` state it |
| MorphoHandlers.AfterWithdrawCollateral | apps/subgraph/tests/morpho.test.ts:264-330 | Model function of the withdraw-collateral handler; `MorphoHandlers.WithdrawCollateralDebits` and `WithdrawCollateralMovesVaultShares` state it |
| MorphoHandlers.AfterAccrueInterest | apps/subgraph/tests/morpho.test.ts:70-153 | Model function of the market accrual handler; `MorphoHandlers.AccrueInterestFails`, `AccrueInterestGrowsMarket` and `AccrueInterestPaysFee` state it |
| MorphoHandlers.RecordMorphoTxFails | apps/subgraph/src/handleMorphoTx.ts:8 | Recording a market entry fails exactly when the market is unknown |
| MorphoHandlers.RecordMorphoTxResult | apps/subgraph/src/handleMorphoTx.ts:7-49 | A recorded entry is saved under its id; market, acting position and user registry change as the ledger says; the vault side and the protocol fee recipient do not change |
| MorphoHandlers.RecordMorphoTxMarket | apps/subgraph/src/handleMorphoTx.ts:7-49 | The entry's market is replaced by its updated copy |
| MorphoHandlers.RecordMorphoTxLeavesVaults | apps/subgraph/src/handleMorphoTx.ts:7-49 | A market entry changes no vault, vault position or vault entry, and keeps the market's collateral token |
| MorphoHandlers.RecordMorphoTxPreservesValid | apps/subgraph/src/handleMorphoTx.ts:7-49 | Recording a market entry keeps the store well formed |
| MorphoHandlers.RecordMorphoTxPreservesConserved | apps/subgraph/src/handleMorphoTx.ts:7-49 | Recording a market entry keeps every market balanced |
| MorphoHandlers.SupplyCredits | apps/subgraph/tests/morpho.test.ts:331-435 | A supply fails exactly on an unknown market; otherwise one SUPPLY entry is saved and the beneficiary's position and the market gain exactly the supplied shares and assets, borrow and collateral unchanged |
| MorphoHandlers.WithdrawDebits | apps/subgraph/tests/morpho.test.ts:436-500 | A withdrawal is a SUPPLY entry with negated amounts that debits the owner's position and the market by exactly the withdrawn shares and assets |
| MorphoHandlers.SupplyThenWithdrawRestores | apps/subgraph/tests/morpho.test.ts:474-496 | Withdrawing the shares just supplied restores the position's and market's supply shares |
| MorphoHandlers.BorrowCharges | apps/subgraph/tests/morpho.test.ts:501-630 | A borrow adds the shares to both borrow-share fields and the assets to the borrow assets with a zero floor |
| MorphoHandlers.RepayReduces | apps/subgraph/tests/morpho.test.ts:631-692 | A repayment lowers both borrow-share fields by exactly the repaid shares and the borrow assets by the repaid assets, floored at zero |
| MorphoHandlers.BorrowThenRepayRestores | apps/subgraph/tests/morpho.test.ts:666-688 | Repaying what was just borrowed restores the borrow shares, and the borrow assets when they were not negative |
| MorphoHandlers.CollateralBridgeFails | apps/subgraph/tests/morpho.test.ts:736-941 | The collateral bridge fails exactly on an unknown market |
| MorphoHandlers.CollateralBridgeSkips | apps/subgraph/tests/morpho.test.ts:155-201 | Collateral that is not a known vault, or a move to the same party, changes nothing |
| MorphoHandlers.CollateralBridgeMovesShares | apps/subgraph/tests/morpho.test.ts:761-821 | Vault shares equal to the collateral amount move from one party to the other (each from zero when new); the vault's share total is unchanged |
| MorphoHandlers.CollateralBridgeLeavesMarkets | apps/subgraph/tests/morpho.test.ts:736-941 | The bridge touches no market, position or market entry |
| MorphoHandlers.CollateralBridgePreservesValid | apps/subgraph/tests/morpho.test.ts:736-941 | The bridge keeps the store well formed |
| MorphoHandlers.CollateralBridgePreservesConserved | apps/subgraph/tests/morpho.test.ts:736-941 | The bridge keeps every total balanced |
| MorphoHandlers.SupplyCollateralFails | apps/subgraph/tests/morpho.test.ts:155-201 | Supplying collateral fails exactly on an unknown market |
| MorphoHandlers.SupplyCollateralCredits | apps/subgraph/tests/morpho.test.ts:188-199 | One COLLATERAL entry with zero shares is saved and the beneficiary's and market's collateral grow by exactly the assets; every share total unchanged |
| MorphoHandlers.SupplyCollateralMovesVaultShares | apps/subgraph/tests/morpho.test.ts:761-821 | When the collateral is a known vault and caller differs from beneficiary, that many vault shares move caller to beneficiary |
| MorphoHandlers.SupplyCollateralLeavesVaults | apps/subgraph/tests/morpho.test.ts:736-760 | Collateral supplied for oneself, or not a known vault, writes no vault entry and moves no vault share |
| MorphoHandlers.SupplyCollateralPreservesValid | apps/subgraph/tests/morpho.test.ts:155-263 | Supplying collateral keeps the store well formed |
| MorphoHandlers.SupplyCollateralPreservesConserved | apps/subgraph/tests/morpho.test.ts:155-263 | Supplying collateral keeps every total balanced |
| MorphoHandlers.WithdrawCollateralFails | apps/subgraph/tests/morpho.test.ts:264-330 | Withdrawing collateral fails exactly on an unknown market |
| MorphoHandlers.WithdrawCollateralDebits | apps/subgraph/tests/morpho.test.ts:264-330 | One COLLATERAL entry with zero shares and negated assets; the owner's and market's collateral drop by exactly the assets |
| MorphoHandlers.WithdrawCollateralMovesVaultShares | apps/subgraph/tests/morpho.test.ts:877-941 | When the collateral is a known vault and the receiver differs from the owner, that many vault shares move owner to receiver |
| MorphoHandlers.WithdrawCollateralLeavesVaults | apps/subgraph/tests/morpho.test.ts:822-876 | Collateral withdrawn to its owner, or not a known vault, writes no vault entry and moves no vault share |
| MorphoHandlers.WithdrawCollateralPreservesValid | apps/subgraph/tests/morpho.test.ts:264-330 | Withdrawing collateral keeps the store well formed |
| MorphoHandlers.WithdrawCollateralPreservesConserved | apps/subgraph/tests/morpho.test.ts:264-330 | Withdrawing collateral keeps every total balanced |
| MorphoHandlers.WithInterestPreservesValid | apps/subgraph/tests/morpho.test.ts:143-151 | Adding interest to a market's asset totals keeps the store well formed |
| MorphoHandlers.WithInterestPreservesConserved | apps/subgraph/tests/morpho.test.ts:143-151 | Asset totals take no part in the share balance: adding interest keeps every market balanced |
| MorphoHandlers.AccrueInterestFails | apps/subgraph/tests/morpho.test.ts:70-153 | A market accrual fails exactly on an unknown market, or on fee shares with no protocol fee recipient |
| MorphoHandlers.AccrueInterestGrowsMarket | apps/subgraph/tests/morpho.test.ts:143-151 | Both asset totals grow by the interest; supply shares grow by the fee shares; borrow shares and collateral unchanged |
| MorphoHandlers.AccrueInterestWithoutFee | apps/subgraph/tests/morpho.test.ts:70-109 | Without fee shares no entry is saved and no position changes |
| MorphoHandlers.AccrueInterestPaysFee | apps/subgraph/tests/morpho.test.ts:110-153 | With fee shares one ACCRUE_INTEREST entry with zero assets is saved under the log id and the fee recipient's supply shares grow by the fee shares |
| MorphoHandlers.AccrueInterestPreservesValid | apps/subgraph/tests/morpho.test.ts:70-153 | A market accrual keeps the store well formed |
| MorphoHandlers.AccrueInterestPreservesConserved | apps/subgraph/tests/morpho.test.ts:70-153 | A market accrual keeps every total balanced |
| MorphoHandlers.RecordMorphoTxKeepsBorrowAssets | apps/subgraph/src/handleMorphoTx.ts:16-31 | Recording any entry but a negative ACCRUE_INTEREST one keeps every market's borrow assets non-negative |
| MorphoHandlers.SupplyCollateralKeepsBorrowAssets | apps/subgraph/tests/morpho.test.ts:155-263 | Supplying collateral, and the vault shares moved with it, keeps every market's borrow assets non-negative |
| MorphoHandlers.WithdrawCollateralKeepsBorrowAssets | apps/subgraph/tests/morpho.test.ts:264-330 | Withdrawing collateral keeps every market's borrow assets non-negative |
| MorphoHandlers.AccrueInterestKeepsBorrowAssets | apps/subgraph/tests/morpho.test.ts:143-151 | A market accrual keeps every market's borrow assets non-negative: the interest is a natural number and the fee entry carries no assets |
| MorphoHandlers.RecordMorphoTx | apps/subgraph/src/handleMorphoTx.ts:7-49 | Saving then applying an entry on the store matches its model function |
| MorphoHandlers.HandleSupply | apps/subgraph/tests/morpho.test.ts:331-435 | The supply handler on the store matches its model function |
| MorphoHandlers.HandleWithdraw | apps/subgraph/tests/morpho.test.ts:436-500 | The withdraw handler on the store matches its model function |
| MorphoHandlers.HandleBorrow | apps/subgraph/tests/morpho.test.ts:501-630 | The borrow handler on the store matches its model function |
| MorphoHandlers.HandleRepay | apps/subgraph/tests/morpho.test.ts:631-692 | The repay handler on the store matches its model function |
| MorphoHandlers.CollateralBridge | apps/subgraph/tests/morpho.test.ts:761-821 | The bridge on the store matches its model function |
| MorphoHandlers.HandleSupplyCollateral | apps/subgraph/tests/morpho.test.ts:155-263 | The supply-collateral handler on the store matches its model function |
| MorphoHandlers.HandleWithdrawCollateral | apps/subgraph/tests/morpho.test.ts:264-330 | The withdraw-collateral handler on the store matches its model function |
| MorphoHandlers.HandleAccrueInterest | apps/subgraph/tests/morpho.test.ts:70-153 | The accrual handler on the store matches its model function |
| RewardPrograms.ProgramKey | apps/subgraph/src/handlers/reward-program.ts:30-35 | The bytes `sender ++ urd ++ rewardToken ++ market` whose hash is the `programId`; `RewardPrograms.ProgramIdIgnoresLogId` states that the log id is not part of it |
| RewardPrograms.RecordId | apps/subgraph/src/handlers/reward-program.ts:13-19 | The record id `hash(terms ++ logId)`; `RewardPrograms.RecordIdsDistinct` states that two log ids give two records |
| RewardPrograms.AfterEmission | apps/subgraph/src/handlers/reward-program.ts:12-51 | Model function of `handleEmission`; `RewardPrograms.EmissionFails` and `EmissionRecord` state it |
| RewardPrograms.AfterProgramRegistered | apps/subgraph/src/handlers/reward-program.ts:56-101 | Model function of `handleMarketRewardsProgramRegistered`; `RewardPrograms.ProgramRegisteredFails` and `ProgramRegisteredRecord` state it |
| RewardPrograms.ProgramIdIgnoresLogId | apps/subgraph/src/handlers/reward-program.ts:77-82 | Two registrations of the same (sender, urd, reward token, market) share their programId, whatever their log ids |
| RewardPrograms.RecordIdsDistinct | apps/subgraph/src/handlers/reward-program.ts:13-19 | With an injective hash, the same terms under two log ids give two record ids, so a later event never replaces an earlier record |
| RewardPrograms.EmissionFails | apps/subgraph/src/handlers/reward-program.ts:22 | An emission fails exactly when the market is unknown |
| RewardPrograms.EmissionRecord | apps/subgraph/src/handlers/reward-program.ts:12-51 | The record under `hash(terms ++ logId)` has programId `hash(terms)`, copies sender, urd, token and the three rates, names the market and the snapshot `<market>-<timestamp>` (written with all five market totals, the timestamp and the block, every other snapshot kept), has no start or end, and every other record is kept |
| RewardPrograms.ProgramRegisteredFails | apps/subgraph/src/handlers/reward-program.ts:69 | A registration fails exactly when the market is unknown |
| RewardPrograms.ProgramRegisteredRecord | apps/subgraph/src/handlers/reward-program.ts:56-101 | As for an emission (the full record, and the market snapshot written with all five totals), with the start and end timestamps set from the event |
| RewardPrograms.ProgramRegisteredIgnoresStoredRecord | apps/subgraph/src/handlers/reward-program.ts:68-76 | The record written does not depend on any record already stored: there is no update path |
| RewardPrograms.EmissionLeavesLedgers | apps/subgraph/src/handlers/reward-program.ts:12-51 | Only market snapshots and reward programs change |
| RewardPrograms.ProgramRegisteredLeavesLedgers | apps/subgraph/src/handlers/reward-program.ts:56-101 | Only market snapshots and reward programs change |
| RewardPrograms.WriteProgramKeepsValid | apps/subgraph/src/handlers/reward-program.ts:23-40 | A program naming an existing market and the snapshot just written keeps the store well formed |
| RewardPrograms.EmissionPreservesValid | apps/subgraph/src/handlers/reward-program.ts:12-51 | An emission keeps the store well formed |
| RewardPrograms.ProgramRegisteredPreservesValid | apps/subgraph/src/handlers/reward-program.ts:56-101 | A registration keeps the store well formed |
| RewardPrograms.HandleEmission | apps/subgraph/src/handlers/reward-program.ts:12-51 | `handleEmission` on the store matches its model function, unchanged on failure |
| RewardPrograms.HandleProgramRegistered | apps/subgraph/src/handlers/reward-program.ts:56-101 | `handleMarketRewardsProgramRegistered` on the store matches its model function, unchanged on failure |
| VaultFactory.AfterCreateVault | apps/subgraph/src/handlers/vault-factory.ts:7-27 | Model function of `handleCreateVault`; `VaultFactory.CreatedVaultSetsUp` states it |
| VaultFactory.CreatedVaultSetsUp | apps/subgraph/src/handlers/vault-factory.ts:8-13 | After creation `setupVault` finds the vault with the event's asset, no fee recipient and zero totals; other vaults, users and vault positions unchanged |
| VaultFactory.AccrualOnNewVault | apps/subgraph/src/handlers/vault-factory.ts:8-13 | On a fresh vault an accrual with fee shares fails (no fee recipient yet) and one without sets the asset total, shares still zero |
| VaultFactory.FirstDepositIntoNewVault | apps/subgraph/src/handlers/vault-factory.ts:10-11 | The first deposit into a vault created at a fresh address succeeds and makes its totals and the owner's shares exactly the deposited amounts |
| VaultFactory.CreateVaultPreservesValid | apps/subgraph/src/handlers/vault-factory.ts:7-27 | Creating a vault keeps the store well formed |
| VaultFactory.CreateVaultPreservesConserved | apps/subgraph/src/handlers/vault-factory.ts:10-11 | Creating a vault at a fresh address keeps every total balanced, since no position can name it yet |
| VaultFactory.HandleCreateVault | apps/subgraph/src/handlers/vault-factory.ts:7-27 | `handleCreateVault` on the store leaves it equal to the model function's result |
| Indexer.AfterEvents | apps/subgraph/src/handlers/vault.ts:17-164 | Model function of the event stream: each event goes to its handler in order, and the first fatal handler stops the fold; `Indexer.EventsStopAtFailure`, `EventsConcat` and `EventsPreserveInvariants` state its properties |
| Indexer.MorphoEventPreservesValid | apps/subgraph/tests/morpho.test.ts:331-941 | Every lending-protocol handler keeps the store well formed |
| Indexer.MorphoEventPreservesConserved | apps/subgraph/src/handleMorphoTx.ts:11-32 | Every lending-protocol handler keeps every total balanced |
| Indexer.VaultEventPreservesValid | apps/subgraph/src/handlers/vault.ts:17-164 | Every vault handler keeps the store well formed |
| Indexer.VaultEventPreservesConserved | apps/subgraph/src/handleVaultTx.ts:10-15 | Every vault handler keeps every total balanced |
| Indexer.RewardsEventPreservesValid | apps/subgraph/src/handlers/reward-program.ts:12-101 | Both reward handlers keep the store well formed |
| Indexer.RewardsEventPreservesConserved | apps/subgraph/src/handlers/reward-program.ts:12-101 | Reward handlers touch no market, position or vault, so every total stays balanced |
| Indexer.EventPreservesValid | apps/subgraph/src/handlers/vault.ts:17-164 | Property of the whole handler set (the vault handlers are cited; the lending, factory and reward handlers are covered the same way): any single event keeps the store well formed |
| Indexer.EventPreservesConserved | apps/subgraph/src/handlers/vault.ts:17-164 | Property of the whole handler set: any single event keeps every total balanced, provided a vault creation does not reuse an address |
| Indexer.EventsPreserveInvariants | apps/subgraph/src/handlers/vault.ts:17-164 | Property of the event stream: folding any stream (no vault address created twice) into a well-formed, balanced store with no negative borrow assets yields such a store again |
| Indexer.VaultEventLeavesMarkets | apps/subgraph/src/handlers/vault.ts:17-164 | No vault handler changes a market |
| Indexer.RewardsEventLeavesMarkets | apps/subgraph/src/handlers/reward-program.ts:12-101 | Neither reward handler changes a market |
| Indexer.MorphoEventKeepsBorrowAssets | apps/subgraph/tests/morpho.test.ts:70-692 | Every lending-protocol handler keeps every market's borrow assets non-negative |
| Indexer.EventKeepsBorrowAssets | apps/subgraph/src/handleMorphoTx.ts:16-31 | Any single event keeps every market's borrow assets non-negative |
| Indexer.EventsStopAtFailure | apps/subgraph/src/handlers/vault.ts:17-164 | Property of the event stream: once an event's handler fails, the whole stream fails and no later event is applied |
| Indexer.EventsConcat | apps/subgraph/src/handlers/vault.ts:17-164 | Property of the event stream: folding a concatenation is folding the first part, then the second from where it left off |
| Indexer.Dispatch | apps/subgraph/src/handlers/vault.ts:17-164 | Routing an event to its handler on the store matches the model function of that event |
| Indexer.ProcessEvent | apps/subgraph/src/handlers/vault.ts:17-164 | Property of the event stream: one event on the store matches its model function, and a failed event's partial writes are discarded |

## Left out

- `hashBytes` and `generateLogId` (in `src/utils`, not part of this model) are not computed. The hash is a function parameter. Each event carries its log id as an opaque byte string.
- `zeroFloorPlus` (`src/utils`) is modelled as `max(0, a + b)`, following the comment at `handleMorphoTx.ts:19`.
- The `MORPHO` address constant (`src/constants.ts`, not part of this model) is a parameter of the transfer handler.
- The lending-protocol handler file is not part of this model. Its handlers are reconstructed from its tests, with the assumptions listed above.
- Market creation and the protocol fee-recipient handler are not in the tests. Markets and the protocol fee recipient come from the initial store.
- A market interest accrual writes no market snapshot in the model, because the tests do not show whether the handler takes one.
- `VaultTemplate.create` (`vault-factory.ts:26`) and `handlers/urd-factory.ts` spawn indexing data sources. They hold no accounting logic.
- The empty `User.load` branch of `vault-factory.ts:15-24` changes nothing and is not modelled separately.
- The CLI package, the lint rules and the build configuration are I/O glue or tooling.
- `log.critical` is modelled as a `Fatal` result that stops indexing, not as log output. The block-level rollback of graph-node is modelled per event, by `Indexer.ProcessEvent` restoring the store.
- Event fields no handler reads are kept only where the event types need them, and are otherwise dropped. This covers, for example, `caller` on supply and `prevBorrowRate`.
- Transaction hash, index and log index are copied into ledger entries as opaque values.
- Amounts are unbounded integers. graph-ts `BigInt` does not wrap, so no width is modelled.
- VaultHandlers.RecordVaultTx: takes the entry already built by the handler, whose vault field is the event's address, instead of re-reading `setupVault(...).id`. Both are the same address once the vault is found.
- MorphoHandlers.HandleSupply: like every lending-protocol handler method, does not state that the store is unchanged on failure. `Indexer.ProcessEvent` states it for every event.
- VaultHandlers.HandleAccrueInterest: does not state that the store is unchanged on failure, because the vault snapshot is written (`handlers/vault.ts:20`) before the missing fee recipient is detected (`handlers/vault.ts:25-28`). `Indexer.ProcessEvent` discards that write.
- VaultFactory.CreateVaultPreservesConserved: requires the vault address to be fresh. Re-creating a vault at a used address zeroes totals that its positions still hold. The factory contract never deploys twice to one address.
- Indexer.EventsPreserveInvariants: requires that no vault address is created twice along the stream, for the same reason.
