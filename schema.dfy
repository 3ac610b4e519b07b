/**
 * The indexer's store: one table per entity type, each a map from the
 * record id to the record, plus the invariants every reachable store keeps.
 */
module Schema {
  import opened Wrappers
  import opened Ids
  import opened Sums

  // ---------------------------------------------------------------------------
  // Entities

  /** A lending market and its five aggregate totals. */
  datatype Market = Market(
    id: Bytes,
    collateralToken: Address,
    loanToken: Address,
    totalSupplyShares: int,
    totalSupplyAssets: int,
    totalBorrowShares: int,
    totalBorrowAssets: int,
    totalCollateral: int)

  /** One user's balances in one market. */
  datatype Position = Position(
    id: Bytes,
    user: Address,
    market: Bytes,
    supplyShares: int,
    borrowShares: int,
    collateral: int)

  /** A vault: its underlying asset, optional fee recipient and share/asset totals. */
  datatype Vault = Vault(
    id: Address,
    asset: Address,
    feeRecipient: Option<Address>,
    totalShares: int,
    totalAssets: int)

  /** One user's shares in one vault. */
  datatype VaultPosition = VaultPosition(
    id: Bytes,
    vault: Address,
    user: Address,
    shares: int)

  /** The four kinds of market ledger entry. */
  datatype TxType = Supply | Borrow | Collateral | AccrueInterest

  /** A market ledger entry: signed deltas applied by the market ledger. */
  datatype MorphoTx = MorphoTx(
    id: Bytes,
    txType: TxType,
    market: Bytes,
    user: Address,
    shares: int,
    assets: int,
    timestamp: int,
    blockNumber: int,
    txHash: Bytes,
    txIndex: int,
    logIndex: int)

  /** A vault ledger entry: signed deltas applied by the vault ledger. */
  datatype VaultTx = VaultTx(
    id: Bytes,
    vault: Address,
    user: Address,
    position: Bytes,
    shares: int,
    assets: int,
    timestamp: int,
    blockNumber: int,
    txHash: Bytes,
    txIndex: int,
    logIndex: int)

  datatype MarketSnapshot = MarketSnapshot(
    id: string,
    market: Bytes,
    totalSupplyShares: int,
    totalSupplyAssets: int,
    totalBorrowShares: int,
    totalBorrowAssets: int,
    totalCollateral: int,
    timestamp: int,
    blockNumber: int)

  datatype PositionSnapshot = PositionSnapshot(
    id: string,
    position: Bytes,
    user: Address,
    marketSnapshot: string,
    supplyShares: int,
    borrowShares: int,
    collateral: int,
    timestamp: int,
    blockNumber: int)

  datatype VaultSnapshot = VaultSnapshot(
    id: string,
    vault: Address,
    feeRecipient: Option<Address>,
    totalShares: int,
    totalAssets: int,
    timestamp: int,
    blockNumber: int)

  /** A vault position's shares at one timestamp; it names its user and vault snapshot only. */
  datatype VaultPositionSnapshot = VaultPositionSnapshot(
    id: string,
    vaultSnapshot: string,
    user: Address,
    shares: int,
    timestamp: int,
    blockNumber: int)

  /** A reward program registration; the two timestamps are set only by the newer event form. */
  datatype RewardProgram = RewardProgram(
    id: Bytes,
    programId: Bytes,
    sender: Address,
    urd: Address,
    rewardToken: Address,
    market: Bytes,
    marketSnapshot: string,
    registrationTimestamp: int,
    startTimestamp: Option<int>,
    endTimestamp: Option<int>,
    annualSupplyRate: int,
    annualBorrowRate: int,
    annualCollateralRate: int)

  /** The block, transaction and log coordinates of the event being handled. */
  datatype EventMeta = EventMeta(
    address: Address,
    logId: Bytes,
    timestamp: int,
    blockNumber: int,
    txHash: Bytes,
    txIndex: int,
    logIndex: int)

  /** The whole store as a value. */
  datatype State = State(
    markets: map<Bytes, Market>,
    positions: map<Bytes, Position>,
    users: set<Address>,
    vaults: map<Address, Vault>,
    vaultPositions: map<Bytes, VaultPosition>,
    morphoTxs: map<Bytes, MorphoTx>,
    vaultTxs: map<Bytes, VaultTx>,
    marketSnapshots: map<string, MarketSnapshot>,
    positionSnapshots: map<string, PositionSnapshot>,
    vaultSnapshots: map<string, VaultSnapshot>,
    vaultPositionSnapshots: map<string, VaultPositionSnapshot>,
    rewardPrograms: map<Bytes, RewardProgram>,
    morphoFeeRecipient: Option<Address>)

  // ---------------------------------------------------------------------------
  // Invariants of every reachable store, one per table so that an untouched
  // table keeps its invariant without being looked at

  /** Markets are stored under their own id. */
  ghost predicate MarketsKeyed(markets: map<Bytes, Market>) {
    forall k :: k in markets ==> markets[k].id == k
  }

  /** Vaults are stored under their own address; a fee recipient is a known user. */
  ghost predicate VaultsKeyed(vaults: map<Address, Vault>, users: set<Address>) {
    forall k :: k in vaults ==>
      vaults[k].id == k && (vaults[k].feeRecipient.Some? ==> vaults[k].feeRecipient.value in users)
  }

  /** Each position is stored under `market ++ user`, and its user and market exist. */
  ghost predicate PositionsKeyed(positions: map<Bytes, Position>, users: set<Address>, markets: map<Bytes, Market>) {
    forall k :: k in positions ==>
      positions[k].id == k && k == PositionId(positions[k].market, positions[k].user) &&
      positions[k].user in users && positions[k].market in markets
  }

  /** Each vault position is stored under `vault ++ user`, and its user and vault exist. */
  ghost predicate VaultPositionsKeyed(vaultPositions: map<Bytes, VaultPosition>, users: set<Address>, vaults: map<Address, Vault>) {
    forall k :: k in vaultPositions ==>
      vaultPositions[k].id == k && k == VaultPositionId(vaultPositions[k].vault, vaultPositions[k].user) &&
      vaultPositions[k].user in users && vaultPositions[k].vault in vaults
  }

  /** A market snapshot is stored under `<market>-<timestamp>`. */
  ghost predicate MarketSnapshotsKeyed(snapshots: map<string, MarketSnapshot>) {
    forall k :: k in snapshots ==>
      snapshots[k].id == k && k == SnapshotId(snapshots[k].market, snapshots[k].timestamp)
  }

  /** A position snapshot is stored under `<position>-<timestamp>` and its market snapshot exists. */
  ghost predicate PositionSnapshotsKeyed(snapshots: map<string, PositionSnapshot>, marketSnapshots: map<string, MarketSnapshot>) {
    forall k :: k in snapshots ==>
      snapshots[k].id == k && k == SnapshotId(snapshots[k].position, snapshots[k].timestamp) &&
      snapshots[k].marketSnapshot in marketSnapshots
  }

  /** A vault snapshot is stored under `<vault>-<timestamp>`. */
  ghost predicate VaultSnapshotsKeyed(snapshots: map<string, VaultSnapshot>) {
    forall k :: k in snapshots ==>
      snapshots[k].id == k && k == SnapshotId(snapshots[k].vault, snapshots[k].timestamp)
  }

  /** A vault position snapshot is stored under its id and its vault snapshot exists. */
  ghost predicate VaultPositionSnapshotsKeyed(snapshots: map<string, VaultPositionSnapshot>, vaultSnapshots: map<string, VaultSnapshot>) {
    forall k :: k in snapshots ==>
      snapshots[k].id == k && snapshots[k].vaultSnapshot in vaultSnapshots
  }

  ghost predicate MorphoTxsKeyed(txs: map<Bytes, MorphoTx>) {
    forall k :: k in txs ==> txs[k].id == k
  }

  ghost predicate VaultTxsKeyed(txs: map<Bytes, VaultTx>) {
    forall k :: k in txs ==> txs[k].id == k
  }

  /** A reward program is stored under its id, and its market and market snapshot exist. */
  ghost predicate ProgramsKeyed(programs: map<Bytes, RewardProgram>, markets: map<Bytes, Market>, marketSnapshots: map<string, MarketSnapshot>) {
    forall k :: k in programs ==>
      programs[k].id == k && programs[k].market in markets && programs[k].marketSnapshot in marketSnapshots
  }

  /** The structural invariant of the store. */
  ghost predicate Valid(s: State) {
    MarketsKeyed(s.markets) &&
    VaultsKeyed(s.vaults, s.users) &&
    PositionsKeyed(s.positions, s.users, s.markets) &&
    VaultPositionsKeyed(s.vaultPositions, s.users, s.vaults) &&
    MarketSnapshotsKeyed(s.marketSnapshots) &&
    PositionSnapshotsKeyed(s.positionSnapshots, s.marketSnapshots) &&
    VaultSnapshotsKeyed(s.vaultSnapshots) &&
    VaultPositionSnapshotsKeyed(s.vaultPositionSnapshots, s.vaultSnapshots) &&
    MorphoTxsKeyed(s.morphoTxs) &&
    VaultTxsKeyed(s.vaultTxs) &&
    ProgramsKeyed(s.rewardPrograms, s.markets, s.marketSnapshots)
  }

  // ---------------------------------------------------------------------------
  // Conservation: each aggregate total is the sum over the positions it aggregates

  function SupplySharesIn(market: Bytes): Position -> int {
    (p: Position) => if p.market == market then p.supplyShares else 0
  }

  function BorrowSharesIn(market: Bytes): Position -> int {
    (p: Position) => if p.market == market then p.borrowShares else 0
  }

  function CollateralIn(market: Bytes): Position -> int {
    (p: Position) => if p.market == market then p.collateral else 0
  }

  function SharesIn(vault: Address): VaultPosition -> int {
    (p: VaultPosition) => if p.vault == vault then p.shares else 0
  }

  /** A market's share and collateral totals equal the sums over its positions. */
  ghost predicate MarketBalanced(market: Market, positions: map<Bytes, Position>) {
    market.totalSupplyShares == Total(positions, SupplySharesIn(market.id)) &&
    market.totalBorrowShares == Total(positions, BorrowSharesIn(market.id)) &&
    market.totalCollateral == Total(positions, CollateralIn(market.id))
  }

  /** A vault's share total equals the sum of its positions' shares. */
  ghost predicate VaultBalanced(vault: Vault, vaultPositions: map<Bytes, VaultPosition>) {
    vault.totalShares == Total(vaultPositions, SharesIn(vault.id))
  }

  ghost predicate MarketsBalanced(markets: map<Bytes, Market>, positions: map<Bytes, Position>) {
    forall id :: id in markets ==> MarketBalanced(markets[id], positions)
  }

  ghost predicate VaultsBalanced(vaults: map<Address, Vault>, vaultPositions: map<Bytes, VaultPosition>) {
    forall v :: v in vaults ==> VaultBalanced(vaults[v], vaultPositions)
  }

  /** Every share and collateral total equals the sum over the positions it aggregates. */
  ghost predicate Conserved(s: State) {
    MarketsBalanced(s.markets, s.positions) && VaultsBalanced(s.vaults, s.vaultPositions)
  }

  /** No market owes a negative amount of borrowed assets. */
  ghost predicate BorrowAssetsNonNegative(s: State) {
    forall id :: id in s.markets ==> s.markets[id].totalBorrowAssets >= 0
  }
}
