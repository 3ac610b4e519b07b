/**
 * The lending-protocol event handlers (handlers/morpho.ts): supplies,
 * withdrawals, borrows, repayments, collateral moves and interest accruals
 * become market ledger entries. Collateral that is itself a known vault also
 * moves vault shares between the two parties of a collateral event.
 */
module MorphoHandlers {
  import opened Wrappers
  import opened Ids
  import opened Schema
  import opened Storage
  import opened Initializers
  import opened MorphoLedger
  import VaultHandlers

  // ---------------------------------------------------------------------------
  // Events of the lending protocol (the on-chain amounts are unsigned); `id` is the market

  datatype SupplyEvent = SupplyEvent(meta: EventMeta, id: Bytes, caller: Address, onBehalf: Address, assets: nat, shares: nat)
  datatype WithdrawEvent = WithdrawEvent(meta: EventMeta, id: Bytes, caller: Address, onBehalf: Address, receiver: Address, assets: nat, shares: nat)
  datatype BorrowEvent = BorrowEvent(meta: EventMeta, id: Bytes, caller: Address, onBehalf: Address, receiver: Address, assets: nat, shares: nat)
  datatype RepayEvent = RepayEvent(meta: EventMeta, id: Bytes, caller: Address, onBehalf: Address, assets: nat, shares: nat)
  datatype SupplyCollateralEvent = SupplyCollateralEvent(meta: EventMeta, id: Bytes, caller: Address, onBehalf: Address, assets: nat)
  datatype WithdrawCollateralEvent = WithdrawCollateralEvent(meta: EventMeta, id: Bytes, caller: Address, onBehalf: Address, receiver: Address, assets: nat)
  datatype AccrueInterestEvent = AccrueInterestEvent(meta: EventMeta, id: Bytes, prevBorrowRate: nat, interest: nat, feeShares: nat)

  /** The ledger entry a handler builds for `user` in `market`, under the event's log id. */
  function NewMorphoTx(meta: EventMeta, txType: TxType, market: Bytes, user: Address, shares: int, assets: int): MorphoTx {
    MorphoTx(meta.logId, txType, market, user, shares, assets,
             meta.timestamp, meta.blockNumber, meta.txHash, meta.txIndex, meta.logIndex)
  }

  /** A supply credits the beneficiary with the supplied shares and assets. */
  function SupplyTx(e: SupplyEvent): MorphoTx {
    NewMorphoTx(e.meta, Supply, e.id, e.onBehalf, e.shares, e.assets)
  }

  /** A withdrawal is a SUPPLY entry with both amounts negated, for the position's owner. */
  function WithdrawTx(e: WithdrawEvent): MorphoTx {
    NewMorphoTx(e.meta, Supply, e.id, e.onBehalf, -(e.shares as int), -(e.assets as int))
  }

  function BorrowTx(e: BorrowEvent): MorphoTx {
    NewMorphoTx(e.meta, Borrow, e.id, e.onBehalf, e.shares, e.assets)
  }

  /** A repayment is a BORROW entry with both amounts negated. */
  function RepayTx(e: RepayEvent): MorphoTx {
    NewMorphoTx(e.meta, Borrow, e.id, e.onBehalf, -(e.shares as int), -(e.assets as int))
  }

  /** Collateral entries carry no shares. */
  function SupplyCollateralTx(e: SupplyCollateralEvent): MorphoTx {
    NewMorphoTx(e.meta, Collateral, e.id, e.onBehalf, 0, e.assets)
  }

  function WithdrawCollateralTx(e: WithdrawCollateralEvent): MorphoTx {
    NewMorphoTx(e.meta, Collateral, e.id, e.onBehalf, 0, -(e.assets as int))
  }

  /** The fee shares minted to the protocol's fee recipient; the interest itself is not part of the entry. */
  function FeeTx(e: AccrueInterestEvent, recipient: Address): MorphoTx {
    NewMorphoTx(e.meta, AccrueInterest, e.id, recipient, e.feeShares, 0)
  }

  // ---------------------------------------------------------------------------
  // The handlers, as functions of the store

  /** The step every handler repeats: save the entry under its id, then `handleMorphoTx`. */
  function AfterRecordMorphoTx(s: State, tx: MorphoTx): Result<State> {
    AfterMorphoTx(s.(morphoTxs := s.morphoTxs[tx.id := tx]), tx)
  }

  function AfterSupply(s: State, e: SupplyEvent): Result<State> {
    AfterRecordMorphoTx(s, SupplyTx(e))
  }

  function AfterWithdraw(s: State, e: WithdrawEvent): Result<State> {
    AfterRecordMorphoTx(s, WithdrawTx(e))
  }

  function AfterBorrow(s: State, e: BorrowEvent): Result<State> {
    AfterRecordMorphoTx(s, BorrowTx(e))
  }

  function AfterRepay(s: State, e: RepayEvent): Result<State> {
    AfterRecordMorphoTx(s, RepayTx(e))
  }

  /**
   * When the market's collateral token is a known vault, collateral moving
   * from `from` to `to` is a transfer of that many vault shares between them
   * (none when they coincide); any other collateral leaves the vaults alone.
   */
  function AfterCollateralBridge(s: State, market: Bytes, meta: EventMeta, from: Address, to: Address, assets: int): Result<State> {
    var m :- GetMarket(s.markets, market);
    if m.collateralToken in s.vaults then VaultHandlers.AfterTransferEntity(s, meta, m.collateralToken, from, to, assets)
    else Ok(s)
  }

  /** Supplied collateral is credited to the beneficiary; vault shares move from the caller to it. */
  function AfterSupplyCollateral(s: State, e: SupplyCollateralEvent): Result<State> {
    var s1 :- AfterRecordMorphoTx(s, SupplyCollateralTx(e));
    AfterCollateralBridge(s1, e.id, e.meta, e.caller, e.onBehalf, e.assets)
  }

  /** Withdrawn collateral is debited from the owner; vault shares move from it to the receiver. */
  function AfterWithdrawCollateral(s: State, e: WithdrawCollateralEvent): Result<State> {
    var s1 :- AfterRecordMorphoTx(s, WithdrawCollateralTx(e));
    AfterCollateralBridge(s1, e.id, e.meta, e.onBehalf, e.receiver, e.assets)
  }

  /** The accrued interest is added to both asset totals of the market. */
  function WithInterest(s: State, market: Market, interest: nat): State {
    var market' := market.(totalSupplyAssets := market.totalSupplyAssets + interest,
                           totalBorrowAssets := market.totalBorrowAssets + interest);
    s.(markets := s.markets[market'.id := market'])
  }

  /** Interest grows the market's asset totals; fee shares, when there are any, go to the protocol's fee recipient. */
  function AfterAccrueInterest(s: State, e: AccrueInterestEvent): Result<State> {
    var market :- GetMarket(s.markets, e.id);
    var s1 := WithInterest(s, market, e.interest);
    if e.feeShares == 0 then Ok(s1)
    else if s.morphoFeeRecipient.None? then Fatal("Fee recipient not set for Morpho")
    else AfterRecordMorphoTx(s1, FeeTx(e, s.morphoFeeRecipient.value))
  }

  // ---------------------------------------------------------------------------
  // One recorded entry

  /** The two market-side invariants the ledger lemmas need. */
  ghost predicate MarketSideKeyed(s: State) {
    MarketsKeyed(s.markets) && PositionsKeyed(s.positions, s.users, s.markets)
  }

  /** Recording an entry fails exactly when its market is unknown, whatever the store. */
  lemma RecordMorphoTxFails(s: State, tx: MorphoTx)
    ensures AfterRecordMorphoTx(s, tx).Fatal? <==> tx.market !in s.markets
  {
  }

  /**
   * A recorded entry is saved under its id; its market and acting position are
   * replaced by their updated copies, the user is registered, and the vault
   * side of the store is left as it was.
   */
  lemma RecordMorphoTxResult(s: State, tx: MorphoTx)
    requires MarketSideKeyed(s)
    ensures var r := AfterRecordMorphoTx(s, tx);
      r.Ok? ==>
        tx.market in s.markets &&
        var (market', position') := MorphoTxEffect(s, tx);
        r.value.morphoTxs == s.morphoTxs[tx.id := tx] &&
        r.value.markets == s.markets[tx.market := market'] &&
        r.value.positions == s.positions[PositionId(tx.market, tx.user) := position'] &&
        r.value.users == s.users + {tx.user} &&
        r.value.vaults == s.vaults && r.value.vaultPositions == s.vaultPositions && r.value.vaultTxs == s.vaultTxs &&
        r.value.morphoFeeRecipient == s.morphoFeeRecipient
  {
    var saved := s.(morphoTxs := s.morphoTxs[tx.id := tx]);
    MorphoTxResult(saved, tx);
  }

  /** The market of a recorded entry is replaced by its updated copy. */
  lemma RecordMorphoTxMarket(s: State, tx: MorphoTx)
    requires MarketSideKeyed(s)
    ensures var r := AfterRecordMorphoTx(s, tx);
      r.Ok? ==> tx.market in s.markets && tx.market in r.value.markets && r.value.markets[tx.market] == MorphoTxEffect(s, tx).0
  {
    RecordMorphoTxResult(s, tx);
  }

  /** A recorded entry leaves the vault side of the store alone and keeps its market's tokens. */
  lemma RecordMorphoTxLeavesVaults(s: State, tx: MorphoTx)
    requires MarketSideKeyed(s)
    ensures var r := AfterRecordMorphoTx(s, tx);
      r.Ok? ==>
        tx.market in s.markets && tx.market in r.value.markets &&
        r.value.markets[tx.market].collateralToken == s.markets[tx.market].collateralToken &&
        r.value.vaults == s.vaults && r.value.vaultPositions == s.vaultPositions && r.value.vaultTxs == s.vaultTxs
  {
    if tx.market in s.markets {
      RecordMorphoTxResult(s, tx);
      ApplyMorphoTxBalances(s.markets[tx.market], PositionOrZero(s, tx.market, tx.user), tx);
    }
  }

  /** Recording an entry keeps the market-side tables keyed. */
  lemma RecordMorphoTxKeepsKeyed(s: State, tx: MorphoTx)
    requires MarketSideKeyed(s)
    ensures AfterRecordMorphoTx(s, tx).Ok? ==> MarketSideKeyed(AfterRecordMorphoTx(s, tx).value)
  {
    if tx.market in s.markets {
      RecordMorphoTxResult(s, tx);
      PositionOrZeroFields(s, tx.market, tx.user);
      ApplyMorphoTxBalances(s.markets[tx.market], PositionOrZero(s, tx.market, tx.user), tx);
      var s' := AfterRecordMorphoTx(s, tx).value;
      assert MarketsKeyed(s'.markets);
      assert PositionsKeyed(s.positions, s'.users, s'.markets);
      PositionsKeyedInsert(s.positions, s'.users, s'.markets, MorphoTxEffect(s, tx).1);
    }
  }

  /** Recording an entry keeps the store well formed. */
  lemma RecordMorphoTxPreservesValid(s: State, tx: MorphoTx)
    requires Valid(s)
    ensures AfterRecordMorphoTx(s, tx).Ok? ==> Valid(AfterRecordMorphoTx(s, tx).value)
  {
    var saved := s.(morphoTxs := s.morphoTxs[tx.id := tx]);
    assert MorphoTxsKeyed(saved.morphoTxs);
    MorphoTxPreservesValid(saved, tx);
  }

  /** Recording an entry keeps every market's share and collateral totals equal to the sums over its positions. */
  lemma RecordMorphoTxPreservesConserved(s: State, tx: MorphoTx)
    requires MarketSideKeyed(s) && Conserved(s)
    ensures AfterRecordMorphoTx(s, tx).Ok? ==> Conserved(AfterRecordMorphoTx(s, tx).value)
  {
    MorphoTxPreservesConserved(s.(morphoTxs := s.morphoTxs[tx.id := tx]), tx);
  }

  // ---------------------------------------------------------------------------
  // Supplies and withdrawals

  /**
   * A supply fails exactly when the market is unknown. Otherwise it saves one
   * SUPPLY entry under the event's log id and credits the beneficiary's
   * position (zero when new) and the market with exactly the supplied shares
   * and assets; nothing on the borrow or collateral side moves.
   */
  lemma SupplyCredits(s: State, e: SupplyEvent)
    requires MarketSideKeyed(s)
    ensures var r, pid := AfterSupply(s, e), PositionId(e.id, e.onBehalf);
      (r.Fatal? <==> e.id !in s.markets) &&
      (r.Ok? ==>
        var m, p := s.markets[e.id], PositionOrZero(s, e.id, e.onBehalf);
        e.id in r.value.markets && pid in r.value.positions &&
        r.value.morphoTxs == s.morphoTxs[e.meta.logId := SupplyTx(e)] &&
        r.value.markets[e.id].totalSupplyShares == m.totalSupplyShares + e.shares &&
        r.value.markets[e.id].totalSupplyAssets == m.totalSupplyAssets + e.assets &&
        r.value.markets[e.id].totalBorrowShares == m.totalBorrowShares &&
        r.value.markets[e.id].totalBorrowAssets == m.totalBorrowAssets &&
        r.value.markets[e.id].totalCollateral == m.totalCollateral &&
        r.value.positions[pid].supplyShares == p.supplyShares + e.shares &&
        r.value.positions[pid].borrowShares == p.borrowShares &&
        r.value.positions[pid].collateral == p.collateral)
  {
    var tx := SupplyTx(e);
    assert tx.txType == Supply && tx.market == e.id && tx.user == e.onBehalf && tx.shares == e.shares && tx.assets == e.assets;
    RecordMorphoTxFails(s, tx);
    RecordMorphoTxResult(s, tx);
  }

  /**
   * A withdrawal fails exactly when the market is unknown. Otherwise it saves
   * a SUPPLY entry with both amounts negated and debits the owner's position
   * (not the receiver's) and the market by exactly the withdrawn shares and assets.
   */
  lemma WithdrawDebits(s: State, e: WithdrawEvent)
    requires MarketSideKeyed(s)
    ensures var r, pid := AfterWithdraw(s, e), PositionId(e.id, e.onBehalf);
      (r.Fatal? <==> e.id !in s.markets) &&
      (r.Ok? ==>
        var m, p := s.markets[e.id], PositionOrZero(s, e.id, e.onBehalf);
        e.id in r.value.markets && pid in r.value.positions &&
        r.value.morphoTxs == s.morphoTxs[e.meta.logId := WithdrawTx(e)] &&
        r.value.markets[e.id].totalSupplyShares == m.totalSupplyShares - e.shares &&
        r.value.markets[e.id].totalSupplyAssets == m.totalSupplyAssets - e.assets &&
        r.value.markets[e.id].totalBorrowShares == m.totalBorrowShares &&
        r.value.markets[e.id].totalBorrowAssets == m.totalBorrowAssets &&
        r.value.markets[e.id].totalCollateral == m.totalCollateral &&
        r.value.positions[pid].supplyShares == p.supplyShares - e.shares &&
        r.value.positions[pid].borrowShares == p.borrowShares &&
        r.value.positions[pid].collateral == p.collateral)
  {
    var tx := WithdrawTx(e);
    assert tx.txType == Supply && tx.market == e.id && tx.user == e.onBehalf && tx.shares == -(e.shares as int) && tx.assets == -(e.assets as int);
    RecordMorphoTxFails(s, tx);
    RecordMorphoTxResult(s, tx);
  }

  /** Withdrawing the shares just supplied puts the position's and the market's supply shares back where they were. */
  lemma SupplyThenWithdrawRestores(s: State, supply: SupplyEvent, withdraw: WithdrawEvent)
    requires MarketSideKeyed(s)
    requires withdraw.id == supply.id && withdraw.onBehalf == supply.onBehalf && withdraw.shares == supply.shares
    ensures var r1 := AfterSupply(s, supply);
      r1.Ok? ==>
        var r2, pid := AfterWithdraw(r1.value, withdraw), PositionId(supply.id, supply.onBehalf);
        r2.Ok? && supply.id in s.markets && supply.id in r2.value.markets && pid in r2.value.positions &&
        r2.value.positions[pid].supplyShares == PositionOrZero(s, supply.id, supply.onBehalf).supplyShares &&
        r2.value.markets[supply.id].totalSupplyShares == s.markets[supply.id].totalSupplyShares &&
        (withdraw.assets == supply.assets ==>
          r2.value.markets[supply.id].totalSupplyAssets == s.markets[supply.id].totalSupplyAssets)
  {
    SupplyCredits(s, supply);
    if AfterSupply(s, supply).Ok? {
      var s1, pid := AfterSupply(s, supply).value, PositionId(supply.id, supply.onBehalf);
      RecordMorphoTxKeepsKeyed(s, SupplyTx(supply));
      assert PositionOrZero(s1, supply.id, supply.onBehalf) == s1.positions[pid];
      WithdrawDebits(s1, withdraw);
    }
  }

  // ---------------------------------------------------------------------------
  // Borrows and repayments

  /**
   * A borrow fails exactly when the market is unknown. Otherwise it saves one
   * BORROW entry and charges the beneficiary's position and the market with
   * the borrowed shares; the market's borrow assets take the clamped sum.
   */
  lemma BorrowCharges(s: State, e: BorrowEvent)
    requires MarketSideKeyed(s)
    ensures var r, pid := AfterBorrow(s, e), PositionId(e.id, e.onBehalf);
      (r.Fatal? <==> e.id !in s.markets) &&
      (r.Ok? ==>
        var m, p := s.markets[e.id], PositionOrZero(s, e.id, e.onBehalf);
        e.id in r.value.markets && pid in r.value.positions &&
        r.value.morphoTxs == s.morphoTxs[e.meta.logId := BorrowTx(e)] &&
        r.value.markets[e.id].totalBorrowShares == m.totalBorrowShares + e.shares &&
        r.value.markets[e.id].totalBorrowAssets == ZeroFloorPlus(m.totalBorrowAssets, e.assets) &&
        r.value.markets[e.id].totalSupplyShares == m.totalSupplyShares &&
        r.value.markets[e.id].totalSupplyAssets == m.totalSupplyAssets &&
        r.value.markets[e.id].totalCollateral == m.totalCollateral &&
        r.value.positions[pid].borrowShares == p.borrowShares + e.shares &&
        r.value.positions[pid].supplyShares == p.supplyShares &&
        r.value.positions[pid].collateral == p.collateral)
  {
    var tx := BorrowTx(e);
    assert tx.txType == Borrow && tx.market == e.id && tx.user == e.onBehalf && tx.shares == e.shares && tx.assets == e.assets;
    RecordMorphoTxFails(s, tx);
    RecordMorphoTxResult(s, tx);
  }

  /**
   * A repayment fails exactly when the market is unknown. Otherwise it saves
   * a BORROW entry with both amounts negated: the position's and the market's
   * borrow shares drop by exactly the repaid shares, and the market's borrow
   * assets drop by the repaid assets but never below zero.
   */
  lemma RepayReduces(s: State, e: RepayEvent)
    requires MarketSideKeyed(s)
    ensures var r, pid := AfterRepay(s, e), PositionId(e.id, e.onBehalf);
      (r.Fatal? <==> e.id !in s.markets) &&
      (r.Ok? ==>
        var m, p := s.markets[e.id], PositionOrZero(s, e.id, e.onBehalf);
        e.id in r.value.markets && pid in r.value.positions &&
        r.value.morphoTxs == s.morphoTxs[e.meta.logId := RepayTx(e)] &&
        r.value.markets[e.id].totalBorrowShares == m.totalBorrowShares - e.shares &&
        r.value.markets[e.id].totalBorrowAssets >= 0 &&
        (e.assets <= m.totalBorrowAssets ==> r.value.markets[e.id].totalBorrowAssets == m.totalBorrowAssets - e.assets) &&
        (e.assets > m.totalBorrowAssets ==> r.value.markets[e.id].totalBorrowAssets == 0) &&
        r.value.markets[e.id].totalSupplyShares == m.totalSupplyShares &&
        r.value.markets[e.id].totalCollateral == m.totalCollateral &&
        r.value.positions[pid].borrowShares == p.borrowShares - e.shares &&
        r.value.positions[pid].supplyShares == p.supplyShares &&
        r.value.positions[pid].collateral == p.collateral)
  {
    var tx := RepayTx(e);
    assert tx.txType == Borrow && tx.market == e.id && tx.user == e.onBehalf && tx.shares == -(e.shares as int) && tx.assets == -(e.assets as int);
    RecordMorphoTxFails(s, tx);
    RecordMorphoTxResult(s, tx);
  }

  /**
   * Repaying the shares and assets just borrowed puts the position's and the
   * market's borrow shares back, and the market's borrow assets too when they
   * were not negative.
   */
  lemma BorrowThenRepayRestores(s: State, borrow: BorrowEvent, repay: RepayEvent)
    requires MarketSideKeyed(s)
    requires repay.id == borrow.id && repay.onBehalf == borrow.onBehalf && repay.shares == borrow.shares
    ensures var r1 := AfterBorrow(s, borrow);
      r1.Ok? ==>
        var r2, pid := AfterRepay(r1.value, repay), PositionId(borrow.id, borrow.onBehalf);
        r2.Ok? && borrow.id in s.markets && borrow.id in r2.value.markets && pid in r2.value.positions &&
        r2.value.positions[pid].borrowShares == PositionOrZero(s, borrow.id, borrow.onBehalf).borrowShares &&
        r2.value.markets[borrow.id].totalBorrowShares == s.markets[borrow.id].totalBorrowShares &&
        (repay.assets == borrow.assets && s.markets[borrow.id].totalBorrowAssets >= 0 ==>
          r2.value.markets[borrow.id].totalBorrowAssets == s.markets[borrow.id].totalBorrowAssets)
  {
    BorrowCharges(s, borrow);
    if AfterBorrow(s, borrow).Ok? {
      var s1, pid := AfterBorrow(s, borrow).value, PositionId(borrow.id, borrow.onBehalf);
      RecordMorphoTxKeepsKeyed(s, BorrowTx(borrow));
      assert PositionOrZero(s1, borrow.id, borrow.onBehalf) == s1.positions[pid];
      RepayReduces(s1, repay);
    }
  }

  // ---------------------------------------------------------------------------
  // Collateral, and vault shares used as collateral

  /** The bridge fails exactly when the market is unknown. */
  lemma CollateralBridgeFails(s: State, market: Bytes, meta: EventMeta, from: Address, to: Address, assets: int)
    requires VaultHandlers.EntitiesKeyed(s)
    ensures AfterCollateralBridge(s, market, meta, from, to, assets).Fatal? <==> market !in s.markets
  {
    if market in s.markets {
      VaultHandlers.TransferEntityFails(s, meta, s.markets[market].collateralToken, from, to, assets);
    }
  }

  /** Collateral that is not a known vault, or that stays with the same party, changes nothing. */
  lemma CollateralBridgeSkips(s: State, market: Bytes, meta: EventMeta, from: Address, to: Address, assets: int)
    requires market in s.markets && (s.markets[market].collateralToken !in s.vaults || from == to)
    ensures AfterCollateralBridge(s, market, meta, from, to, assets) == Ok(s)
  {
  }

  /**
   * Vault collateral moving between two parties moves exactly that many vault
   * shares from the one's vault position to the other's (each zero when new);
   * the vault's share total is unchanged.
   */
  lemma CollateralBridgeMovesShares(s: State, market: Bytes, meta: EventMeta, from: Address, to: Address, assets: int)
    requires VaultHandlers.EntitiesKeyed(s) && market in s.markets && s.markets[market].collateralToken in s.vaults && from != to
    ensures var r, v := AfterCollateralBridge(s, market, meta, from, to, assets), s.markets[market].collateralToken;
      var fid, tid := VaultPositionId(v, from), VaultPositionId(v, to);
      r.Ok? && v in r.value.vaults && fid in r.value.vaultPositions && tid in r.value.vaultPositions &&
      r.value.vaults[v].totalShares == s.vaults[v].totalShares &&
      r.value.vaultPositions[fid].shares == VaultPositionOrZero(s, v, from).shares - assets &&
      r.value.vaultPositions[tid].shares == VaultPositionOrZero(s, v, to).shares + assets
  {
    var v := s.markets[market].collateralToken;
    VaultHandlers.TransferEntityFails(s, meta, v, from, to, assets);
    VaultHandlers.TransferEntityMovesShares(s, meta, v, from, to, assets);
  }

  /** The bridge never touches a market, a position or the market ledger. */
  lemma CollateralBridgeLeavesMarkets(s: State, market: Bytes, meta: EventMeta, from: Address, to: Address, assets: int)
    requires VaultHandlers.EntitiesKeyed(s)
    ensures var r := AfterCollateralBridge(s, market, meta, from, to, assets);
      r.Ok? ==> r.value.markets == s.markets && r.value.positions == s.positions && r.value.morphoTxs == s.morphoTxs
  {
    if market in s.markets {
      VaultHandlers.TransferEntityLeavesMarkets(s, meta, s.markets[market].collateralToken, from, to, assets);
    }
  }

  lemma CollateralBridgePreservesValid(s: State, market: Bytes, meta: EventMeta, from: Address, to: Address, assets: int)
    requires Valid(s)
    ensures var r := AfterCollateralBridge(s, market, meta, from, to, assets);
      r.Ok? ==> Valid(r.value)
  {
    if market in s.markets {
      VaultHandlers.TransferEntityPreservesValid(s, meta, s.markets[market].collateralToken, from, to, assets);
    }
  }

  lemma CollateralBridgePreservesConserved(s: State, market: Bytes, meta: EventMeta, from: Address, to: Address, assets: int)
    requires VaultHandlers.EntitiesKeyed(s) && Conserved(s)
    ensures var r := AfterCollateralBridge(s, market, meta, from, to, assets);
      r.Ok? ==> Conserved(r.value)
  {
    if market in s.markets {
      VaultHandlers.TransferEntityPreservesConserved(s, meta, s.markets[market].collateralToken, from, to, assets);
    }
  }

  /** Supplying collateral fails exactly when the market is unknown. */
  lemma SupplyCollateralFails(s: State, e: SupplyCollateralEvent)
    requires Valid(s)
    ensures AfterSupplyCollateral(s, e).Fatal? <==> e.id !in s.markets
  {
    var tx := SupplyCollateralTx(e);
    RecordMorphoTxFails(s, tx);
    if e.id in s.markets {
      RecordMorphoTxPreservesValid(s, tx);
      RecordMorphoTxResult(s, tx);
      CollateralBridgeFails(AfterRecordMorphoTx(s, tx).value, e.id, e.meta, e.caller, e.onBehalf, e.assets);
    }
  }

  /**
   * Supplied collateral is saved as one COLLATERAL entry without shares and
   * credits the beneficiary's position (zero when new) and the market's
   * collateral with the supplied assets; no share total moves.
   */
  lemma SupplyCollateralCredits(s: State, e: SupplyCollateralEvent)
    requires Valid(s)
    ensures var r, pid := AfterSupplyCollateral(s, e), PositionId(e.id, e.onBehalf);
      r.Ok? ==>
        var m, p := s.markets[e.id], PositionOrZero(s, e.id, e.onBehalf);
        e.id in r.value.markets && pid in r.value.positions &&
        r.value.morphoTxs == s.morphoTxs[e.meta.logId := SupplyCollateralTx(e)] &&
        r.value.markets[e.id].totalCollateral == m.totalCollateral + e.assets &&
        r.value.markets[e.id].totalSupplyShares == m.totalSupplyShares &&
        r.value.markets[e.id].totalBorrowShares == m.totalBorrowShares &&
        r.value.positions[pid].collateral == p.collateral + e.assets &&
        r.value.positions[pid].supplyShares == p.supplyShares &&
        r.value.positions[pid].borrowShares == p.borrowShares
  {
    var tx := SupplyCollateralTx(e);
    assert tx.txType == Collateral && tx.market == e.id && tx.user == e.onBehalf && tx.shares == 0 && tx.assets == e.assets;
    if AfterRecordMorphoTx(s, tx).Ok? {
      RecordMorphoTxResult(s, tx);
      RecordMorphoTxPreservesValid(s, tx);
      CollateralBridgeLeavesMarkets(AfterRecordMorphoTx(s, tx).value, e.id, e.meta, e.caller, e.onBehalf, e.assets);
    }
  }

  /**
   * Vault collateral supplied by the caller on behalf of someone else moves
   * exactly the supplied amount of vault shares from the caller's vault
   * position to the beneficiary's.
   */
  lemma SupplyCollateralMovesVaultShares(s: State, e: SupplyCollateralEvent)
    requires Valid(s) && e.id in s.markets && s.markets[e.id].collateralToken in s.vaults && e.caller != e.onBehalf
    ensures var r, v := AfterSupplyCollateral(s, e), s.markets[e.id].collateralToken;
      var cid, oid := VaultPositionId(v, e.caller), VaultPositionId(v, e.onBehalf);
      r.Ok? && cid in r.value.vaultPositions && oid in r.value.vaultPositions &&
      r.value.vaultPositions[cid].shares == VaultPositionOrZero(s, v, e.caller).shares - e.assets &&
      r.value.vaultPositions[oid].shares == VaultPositionOrZero(s, v, e.onBehalf).shares + e.assets
  {
    var tx, v := SupplyCollateralTx(e), s.markets[e.id].collateralToken;
    assert tx.txType == Collateral && tx.market == e.id;
    RecordMorphoTxFails(s, tx);
    RecordMorphoTxLeavesVaults(s, tx);
    RecordMorphoTxPreservesValid(s, tx);
    var s1 := AfterRecordMorphoTx(s, tx).value;
    assert VaultPositionOrZero(s1, v, e.caller) == VaultPositionOrZero(s, v, e.caller);
    assert VaultPositionOrZero(s1, v, e.onBehalf) == VaultPositionOrZero(s, v, e.onBehalf);
    CollateralBridgeMovesShares(s1, e.id, e.meta, e.caller, e.onBehalf, e.assets);
  }

  /** Collateral supplied for oneself, or collateral that is not a known vault, writes no vault entry and moves no vault share. */
  lemma SupplyCollateralLeavesVaults(s: State, e: SupplyCollateralEvent)
    requires MarketSideKeyed(s)
    requires e.caller == e.onBehalf || (e.id in s.markets && s.markets[e.id].collateralToken !in s.vaults)
    ensures var r := AfterSupplyCollateral(s, e);
      r.Ok? ==> r.value.vaults == s.vaults && r.value.vaultPositions == s.vaultPositions && r.value.vaultTxs == s.vaultTxs
  {
    var tx := SupplyCollateralTx(e);
    assert tx.txType == Collateral && tx.market == e.id;
    if e.id in s.markets {
      RecordMorphoTxLeavesVaults(s, tx);
      CollateralBridgeSkips(AfterRecordMorphoTx(s, tx).value, e.id, e.meta, e.caller, e.onBehalf, e.assets);
    }
  }

  lemma SupplyCollateralPreservesValid(s: State, e: SupplyCollateralEvent)
    requires Valid(s)
    ensures AfterSupplyCollateral(s, e).Ok? ==> Valid(AfterSupplyCollateral(s, e).value)
  {
    var tx := SupplyCollateralTx(e);
    RecordMorphoTxPreservesValid(s, tx);
    if AfterRecordMorphoTx(s, tx).Ok? {
      CollateralBridgePreservesValid(AfterRecordMorphoTx(s, tx).value, e.id, e.meta, e.caller, e.onBehalf, e.assets);
    }
  }

  lemma SupplyCollateralPreservesConserved(s: State, e: SupplyCollateralEvent)
    requires Valid(s) && Conserved(s)
    ensures AfterSupplyCollateral(s, e).Ok? ==> Conserved(AfterSupplyCollateral(s, e).value)
  {
    var tx := SupplyCollateralTx(e);
    RecordMorphoTxPreservesValid(s, tx);
    RecordMorphoTxPreservesConserved(s, tx);
    if AfterRecordMorphoTx(s, tx).Ok? {
      CollateralBridgePreservesConserved(AfterRecordMorphoTx(s, tx).value, e.id, e.meta, e.caller, e.onBehalf, e.assets);
    }
  }

  /** Withdrawing collateral fails exactly when the market is unknown. */
  lemma WithdrawCollateralFails(s: State, e: WithdrawCollateralEvent)
    requires Valid(s)
    ensures AfterWithdrawCollateral(s, e).Fatal? <==> e.id !in s.markets
  {
    var tx := WithdrawCollateralTx(e);
    RecordMorphoTxFails(s, tx);
    if e.id in s.markets {
      RecordMorphoTxPreservesValid(s, tx);
      RecordMorphoTxResult(s, tx);
      CollateralBridgeFails(AfterRecordMorphoTx(s, tx).value, e.id, e.meta, e.onBehalf, e.receiver, e.assets);
    }
  }

  /**
   * Withdrawn collateral is saved as one COLLATERAL entry without shares and
   * debits the owner's position and the market's collateral by the withdrawn
   * assets; no share total moves.
   */
  lemma WithdrawCollateralDebits(s: State, e: WithdrawCollateralEvent)
    requires Valid(s)
    ensures var r, pid := AfterWithdrawCollateral(s, e), PositionId(e.id, e.onBehalf);
      r.Ok? ==>
        var m, p := s.markets[e.id], PositionOrZero(s, e.id, e.onBehalf);
        e.id in r.value.markets && pid in r.value.positions &&
        r.value.morphoTxs == s.morphoTxs[e.meta.logId := WithdrawCollateralTx(e)] &&
        r.value.markets[e.id].totalCollateral == m.totalCollateral - e.assets &&
        r.value.markets[e.id].totalSupplyShares == m.totalSupplyShares &&
        r.value.markets[e.id].totalBorrowShares == m.totalBorrowShares &&
        r.value.positions[pid].collateral == p.collateral - e.assets &&
        r.value.positions[pid].supplyShares == p.supplyShares &&
        r.value.positions[pid].borrowShares == p.borrowShares
  {
    var tx := WithdrawCollateralTx(e);
    assert tx.txType == Collateral && tx.market == e.id && tx.user == e.onBehalf && tx.shares == 0 && tx.assets == -(e.assets as int);
    if AfterRecordMorphoTx(s, tx).Ok? {
      RecordMorphoTxResult(s, tx);
      RecordMorphoTxPreservesValid(s, tx);
      CollateralBridgeLeavesMarkets(AfterRecordMorphoTx(s, tx).value, e.id, e.meta, e.onBehalf, e.receiver, e.assets);
    }
  }

  /**
   * Vault collateral withdrawn to a receiver other than the owner moves
   * exactly the withdrawn amount of vault shares from the owner's vault
   * position to the receiver's.
   */
  lemma WithdrawCollateralMovesVaultShares(s: State, e: WithdrawCollateralEvent)
    requires Valid(s) && e.id in s.markets && s.markets[e.id].collateralToken in s.vaults && e.onBehalf != e.receiver
    ensures var r, v := AfterWithdrawCollateral(s, e), s.markets[e.id].collateralToken;
      var oid, rid := VaultPositionId(v, e.onBehalf), VaultPositionId(v, e.receiver);
      r.Ok? && oid in r.value.vaultPositions && rid in r.value.vaultPositions &&
      r.value.vaultPositions[oid].shares == VaultPositionOrZero(s, v, e.onBehalf).shares - e.assets &&
      r.value.vaultPositions[rid].shares == VaultPositionOrZero(s, v, e.receiver).shares + e.assets
  {
    var tx, v := WithdrawCollateralTx(e), s.markets[e.id].collateralToken;
    assert tx.txType == Collateral && tx.market == e.id;
    RecordMorphoTxFails(s, tx);
    RecordMorphoTxLeavesVaults(s, tx);
    RecordMorphoTxPreservesValid(s, tx);
    var s1 := AfterRecordMorphoTx(s, tx).value;
    assert VaultPositionOrZero(s1, v, e.onBehalf) == VaultPositionOrZero(s, v, e.onBehalf);
    assert VaultPositionOrZero(s1, v, e.receiver) == VaultPositionOrZero(s, v, e.receiver);
    CollateralBridgeMovesShares(s1, e.id, e.meta, e.onBehalf, e.receiver, e.assets);
  }

  /** Collateral withdrawn to its owner, or collateral that is not a known vault, writes no vault entry and moves no vault share. */
  lemma WithdrawCollateralLeavesVaults(s: State, e: WithdrawCollateralEvent)
    requires MarketSideKeyed(s)
    requires e.onBehalf == e.receiver || (e.id in s.markets && s.markets[e.id].collateralToken !in s.vaults)
    ensures var r := AfterWithdrawCollateral(s, e);
      r.Ok? ==> r.value.vaults == s.vaults && r.value.vaultPositions == s.vaultPositions && r.value.vaultTxs == s.vaultTxs
  {
    var tx := WithdrawCollateralTx(e);
    assert tx.txType == Collateral && tx.market == e.id;
    if e.id in s.markets {
      RecordMorphoTxLeavesVaults(s, tx);
      CollateralBridgeSkips(AfterRecordMorphoTx(s, tx).value, e.id, e.meta, e.onBehalf, e.receiver, e.assets);
    }
  }

  lemma WithdrawCollateralPreservesValid(s: State, e: WithdrawCollateralEvent)
    requires Valid(s)
    ensures AfterWithdrawCollateral(s, e).Ok? ==> Valid(AfterWithdrawCollateral(s, e).value)
  {
    var tx := WithdrawCollateralTx(e);
    RecordMorphoTxPreservesValid(s, tx);
    if AfterRecordMorphoTx(s, tx).Ok? {
      CollateralBridgePreservesValid(AfterRecordMorphoTx(s, tx).value, e.id, e.meta, e.onBehalf, e.receiver, e.assets);
    }
  }

  lemma WithdrawCollateralPreservesConserved(s: State, e: WithdrawCollateralEvent)
    requires Valid(s) && Conserved(s)
    ensures AfterWithdrawCollateral(s, e).Ok? ==> Conserved(AfterWithdrawCollateral(s, e).value)
  {
    var tx := WithdrawCollateralTx(e);
    RecordMorphoTxPreservesValid(s, tx);
    RecordMorphoTxPreservesConserved(s, tx);
    if AfterRecordMorphoTx(s, tx).Ok? {
      CollateralBridgePreservesConserved(AfterRecordMorphoTx(s, tx).value, e.id, e.meta, e.onBehalf, e.receiver, e.assets);
    }
  }

  // ---------------------------------------------------------------------------
  // Interest accrual

  /** Adding interest changes only two asset totals of one market, so the store stays well formed. */
  lemma WithInterestPreservesValid(s: State, e: AccrueInterestEvent)
    requires Valid(s) && e.id in s.markets
    ensures Valid(WithInterest(s, s.markets[e.id], e.interest))
  {
    var s1 := WithInterest(s, s.markets[e.id], e.interest);
    assert s1.markets.Keys == s.markets.Keys;
    assert PositionsKeyed(s1.positions, s1.users, s1.markets);
    assert ProgramsKeyed(s1.rewardPrograms, s1.markets, s1.marketSnapshots);
  }

  /** Asset totals take no part in the balance of shares and collateral: adding interest keeps every market balanced. */
  lemma WithInterestPreservesConserved(s: State, e: AccrueInterestEvent)
    requires MarketsKeyed(s.markets) && Conserved(s) && e.id in s.markets
    ensures Conserved(WithInterest(s, s.markets[e.id], e.interest))
  {
    var s1 := WithInterest(s, s.markets[e.id], e.interest);
    forall k | k in s1.markets
      ensures MarketBalanced(s1.markets[k], s1.positions)
    {
      assert MarketBalanced(s.markets[k], s.positions);
    }
  }

  /** Adding interest replaces one market by a copy with grown asset totals and keeps the market side keyed. */
  lemma WithInterestKeepsKeyed(s: State, e: AccrueInterestEvent)
    requires MarketSideKeyed(s) && e.id in s.markets
    ensures var s1, m := WithInterest(s, s.markets[e.id], e.interest), s.markets[e.id];
      MarketSideKeyed(s1) && e.id in s1.markets &&
      s1.markets[e.id] == m.(totalSupplyAssets := m.totalSupplyAssets + e.interest,
                             totalBorrowAssets := m.totalBorrowAssets + e.interest) &&
      s1.positions == s.positions && s1.morphoTxs == s.morphoTxs && s1.users == s.users &&
      s1.morphoFeeRecipient == s.morphoFeeRecipient
  {
    var s1 := WithInterest(s, s.markets[e.id], e.interest);
    assert s1.markets.Keys == s.markets.Keys;
    assert PositionsKeyed(s1.positions, s1.users, s1.markets);
  }

  /**
   * An accrual fails exactly when the market is unknown, or when there are
   * fee shares and the protocol's fee recipient is not set.
   */
  lemma AccrueInterestFails(s: State, e: AccrueInterestEvent)
    ensures AfterAccrueInterest(s, e).Fatal? <==>
      e.id !in s.markets || (e.feeShares != 0 && s.morphoFeeRecipient.None?)
  {
    if e.id in s.markets && e.feeShares != 0 && s.morphoFeeRecipient.Some? {
      RecordMorphoTxFails(WithInterest(s, s.markets[e.id], e.interest), FeeTx(e, s.morphoFeeRecipient.value));
    }
  }

  /**
   * An accrual adds the interest to both the supply and the borrow assets of
   * its market and the fee shares to the supply shares; borrow shares and
   * collateral do not move.
   */
  lemma AccrueInterestGrowsMarket(s: State, e: AccrueInterestEvent)
    requires MarketSideKeyed(s)
    ensures var r := AfterAccrueInterest(s, e);
      r.Ok? ==>
        e.id in s.markets && e.id in r.value.markets &&
        var m, m' := s.markets[e.id], r.value.markets[e.id];
        m'.totalSupplyAssets == m.totalSupplyAssets + e.interest &&
        m'.totalBorrowAssets == m.totalBorrowAssets + e.interest &&
        m'.totalSupplyShares == m.totalSupplyShares + e.feeShares &&
        m'.totalBorrowShares == m.totalBorrowShares &&
        m'.totalCollateral == m.totalCollateral
  {
    if e.id in s.markets {
      WithInterestKeepsKeyed(s, e);
      if e.feeShares != 0 && s.morphoFeeRecipient.Some? {
        var s1, tx := WithInterest(s, s.markets[e.id], e.interest), FeeTx(e, s.morphoFeeRecipient.value);
        assert tx.txType == AccrueInterest && tx.market == e.id && tx.shares == e.feeShares && tx.assets == 0;
        RecordMorphoTxMarket(s1, tx);
      }
    }
  }

  /** Without fee shares an accrual writes no ledger entry and touches no position: only the market's assets grow. */
  lemma AccrueInterestWithoutFee(s: State, e: AccrueInterestEvent)
    requires e.feeShares == 0
    ensures var r := AfterAccrueInterest(s, e);
      r.Ok? ==> r.value.morphoTxs == s.morphoTxs && r.value.positions == s.positions && r.value.users == s.users
  {
  }

  /** Fee shares are saved as one ACCRUE_INTEREST entry under the event's log id and credited to the protocol's fee recipient. */
  lemma AccrueInterestPaysFee(s: State, e: AccrueInterestEvent)
    requires MarketSideKeyed(s) && e.feeShares != 0
    ensures var r := AfterAccrueInterest(s, e);
      r.Ok? ==>
        s.morphoFeeRecipient.Some? &&
        var recipient := s.morphoFeeRecipient.value;
        var pid := PositionId(e.id, recipient);
        r.value.morphoTxs == s.morphoTxs[e.meta.logId := FeeTx(e, recipient)] &&
        r.value.users == s.users + {recipient} &&
        pid in r.value.positions &&
        r.value.positions[pid].supplyShares == PositionOrZero(s, e.id, recipient).supplyShares + e.feeShares
  {
    if e.id in s.markets && s.morphoFeeRecipient.Some? {
      var recipient := s.morphoFeeRecipient.value;
      var s1, tx := WithInterest(s, s.markets[e.id], e.interest), FeeTx(e, recipient);
      WithInterestKeepsKeyed(s, e);
      assert tx.txType == AccrueInterest && tx.market == e.id && tx.user == recipient && tx.shares == e.feeShares;
      assert PositionOrZero(s1, e.id, recipient) == PositionOrZero(s, e.id, recipient);
      RecordMorphoTxResult(s1, tx);
    }
  }

  lemma AccrueInterestPreservesValid(s: State, e: AccrueInterestEvent)
    requires Valid(s)
    ensures AfterAccrueInterest(s, e).Ok? ==> Valid(AfterAccrueInterest(s, e).value)
  {
    if e.id in s.markets {
      WithInterestPreservesValid(s, e);
      if e.feeShares != 0 && s.morphoFeeRecipient.Some? {
        RecordMorphoTxPreservesValid(WithInterest(s, s.markets[e.id], e.interest), FeeTx(e, s.morphoFeeRecipient.value));
      }
    }
  }

  lemma AccrueInterestPreservesConserved(s: State, e: AccrueInterestEvent)
    requires Valid(s) && Conserved(s)
    ensures AfterAccrueInterest(s, e).Ok? ==> Conserved(AfterAccrueInterest(s, e).value)
  {
    if e.id in s.markets {
      WithInterestPreservesValid(s, e);
      WithInterestPreservesConserved(s, e);
      if e.feeShares != 0 && s.morphoFeeRecipient.Some? {
        RecordMorphoTxPreservesConserved(WithInterest(s, s.markets[e.id], e.interest), FeeTx(e, s.morphoFeeRecipient.value));
      }
    }
  }

  // ---------------------------------------------------------------------------
  // Borrow assets never go negative

  /** Recording an entry keeps every market's borrow assets non-negative, unless it is a negative ACCRUE_INTEREST entry. */
  lemma RecordMorphoTxKeepsBorrowAssets(s: State, tx: MorphoTx)
    requires MarketSideKeyed(s) && BorrowAssetsNonNegative(s)
    requires tx.txType == AccrueInterest ==> tx.assets >= 0
    ensures AfterRecordMorphoTx(s, tx).Ok? ==> BorrowAssetsNonNegative(AfterRecordMorphoTx(s, tx).value)
  {
    MorphoTxKeepsBorrowAssets(s.(morphoTxs := s.morphoTxs[tx.id := tx]), tx);
  }

  /** Collateral, and the vault shares moved with it, never touch a market's borrow assets. */
  lemma SupplyCollateralKeepsBorrowAssets(s: State, e: SupplyCollateralEvent)
    requires Valid(s) && BorrowAssetsNonNegative(s)
    ensures AfterSupplyCollateral(s, e).Ok? ==> BorrowAssetsNonNegative(AfterSupplyCollateral(s, e).value)
  {
    var tx := SupplyCollateralTx(e);
    RecordMorphoTxKeepsBorrowAssets(s, tx);
    RecordMorphoTxPreservesValid(s, tx);
    if AfterRecordMorphoTx(s, tx).Ok? {
      CollateralBridgeLeavesMarkets(AfterRecordMorphoTx(s, tx).value, e.id, e.meta, e.caller, e.onBehalf, e.assets);
    }
  }

  lemma WithdrawCollateralKeepsBorrowAssets(s: State, e: WithdrawCollateralEvent)
    requires Valid(s) && BorrowAssetsNonNegative(s)
    ensures AfterWithdrawCollateral(s, e).Ok? ==> BorrowAssetsNonNegative(AfterWithdrawCollateral(s, e).value)
  {
    var tx := WithdrawCollateralTx(e);
    RecordMorphoTxKeepsBorrowAssets(s, tx);
    RecordMorphoTxPreservesValid(s, tx);
    if AfterRecordMorphoTx(s, tx).Ok? {
      CollateralBridgeLeavesMarkets(AfterRecordMorphoTx(s, tx).value, e.id, e.meta, e.onBehalf, e.receiver, e.assets);
    }
  }

  /**
   * An accrual keeps every market's borrow assets non-negative: the interest
   * added is a natural number, and the fee entry carries no assets.
   */
  lemma AccrueInterestKeepsBorrowAssets(s: State, e: AccrueInterestEvent)
    requires MarketSideKeyed(s) && BorrowAssetsNonNegative(s)
    ensures AfterAccrueInterest(s, e).Ok? ==> BorrowAssetsNonNegative(AfterAccrueInterest(s, e).value)
  {
    if e.id in s.markets {
      WithInterestKeepsKeyed(s, e);
      var s1 := WithInterest(s, s.markets[e.id], e.interest);
      assert BorrowAssetsNonNegative(s1);
      if e.feeShares != 0 && s.morphoFeeRecipient.Some? {
        RecordMorphoTxKeepsBorrowAssets(s1, FeeTx(e, s.morphoFeeRecipient.value));
      }
    }
  }

  // ---------------------------------------------------------------------------
  // The handlers on the store

  /** The recording step: save the entry, then apply it. */
  method RecordMorphoTx(store: Store, tx: MorphoTx) returns (r: Result<()>)
    modifies store
    ensures var expected := AfterRecordMorphoTx(old(store.Model()), tx);
      r.Ok? == expected.Ok? &&
      (r.Ok? ==> store.Model() == expected.value)
  {
    store.morphoTxs := store.morphoTxs[tx.id := tx];
    r := HandleMorphoTx(store, tx);
  }

  method HandleSupply(store: Store, e: SupplyEvent) returns (r: Result<()>)
    modifies store
    ensures var expected := AfterSupply(old(store.Model()), e);
      r.Ok? == expected.Ok? &&
      (r.Ok? ==> store.Model() == expected.value)
  {
    r := RecordMorphoTx(store, SupplyTx(e));
  }

  method HandleWithdraw(store: Store, e: WithdrawEvent) returns (r: Result<()>)
    modifies store
    ensures var expected := AfterWithdraw(old(store.Model()), e);
      r.Ok? == expected.Ok? &&
      (r.Ok? ==> store.Model() == expected.value)
  {
    r := RecordMorphoTx(store, WithdrawTx(e));
  }

  method HandleBorrow(store: Store, e: BorrowEvent) returns (r: Result<()>)
    modifies store
    ensures var expected := AfterBorrow(old(store.Model()), e);
      r.Ok? == expected.Ok? &&
      (r.Ok? ==> store.Model() == expected.value)
  {
    r := RecordMorphoTx(store, BorrowTx(e));
  }

  method HandleRepay(store: Store, e: RepayEvent) returns (r: Result<()>)
    modifies store
    ensures var expected := AfterRepay(old(store.Model()), e);
      r.Ok? == expected.Ok? &&
      (r.Ok? ==> store.Model() == expected.value)
  {
    r := RecordMorphoTx(store, RepayTx(e));
  }

  /** Moves vault shares used as collateral from `from` to `to` when the market's collateral token is a known vault. */
  method CollateralBridge(store: Store, market: Bytes, meta: EventMeta, from: Address, to: Address, assets: int)
    returns (r: Result<()>)
    modifies store
    ensures var expected := AfterCollateralBridge(old(store.Model()), market, meta, from, to, assets);
      r.Ok? == expected.Ok? &&
      (r.Ok? ==> store.Model() == expected.value)
  {
    var m :- GetMarket(store.markets, market);
    if m.collateralToken in store.vaults {
      r := VaultHandlers.HandleTransferEntity(store, meta, m.collateralToken, from, to, assets);
    } else {
      r := Ok(());
    }
  }

  method HandleSupplyCollateral(store: Store, e: SupplyCollateralEvent) returns (r: Result<()>)
    modifies store
    ensures var expected := AfterSupplyCollateral(old(store.Model()), e);
      r.Ok? == expected.Ok? &&
      (r.Ok? ==> store.Model() == expected.value)
  {
    var _ :- RecordMorphoTx(store, SupplyCollateralTx(e));
    r := CollateralBridge(store, e.id, e.meta, e.caller, e.onBehalf, e.assets);
  }

  method HandleWithdrawCollateral(store: Store, e: WithdrawCollateralEvent) returns (r: Result<()>)
    modifies store
    ensures var expected := AfterWithdrawCollateral(old(store.Model()), e);
      r.Ok? == expected.Ok? &&
      (r.Ok? ==> store.Model() == expected.value)
  {
    var _ :- RecordMorphoTx(store, WithdrawCollateralTx(e));
    r := CollateralBridge(store, e.id, e.meta, e.onBehalf, e.receiver, e.assets);
  }

  method HandleAccrueInterest(store: Store, e: AccrueInterestEvent) returns (r: Result<()>)
    modifies store
    ensures var expected := AfterAccrueInterest(old(store.Model()), e);
      r.Ok? == expected.Ok? &&
      (r.Ok? ==> store.Model() == expected.value)
  {
    ghost var s0 := store.Model();
    var market :- GetMarket(store.markets, e.id);
    market := market.(totalSupplyAssets := market.totalSupplyAssets + e.interest,
                      totalBorrowAssets := market.totalBorrowAssets + e.interest);
    store.markets := store.markets[market.id := market];
    assert store.Model() == WithInterest(s0, s0.markets[e.id], e.interest);

    if e.feeShares == 0 {
      return Ok(());
    }
    if store.morphoFeeRecipient.None? {
      return Fatal("Fee recipient not set for Morpho");
    }
    r := RecordMorphoTx(store, FeeTx(e, store.morphoFeeRecipient.value));
  }
}
