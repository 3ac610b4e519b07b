/**
 * The market ledger (handleMorphoTx.ts): applies one typed ledger entry to
 * its market's totals and to the acting user's position, then snapshots the
 * market and the position at the entry's timestamp.
 */
module MorphoLedger {
  import opened Wrappers
  import opened Ids
  import opened Sums
  import opened Schema
  import opened Storage
  import opened Initializers
  import opened Snapshots

  /** `zeroFloorPlus(a, b)`: the sum, clamped at zero from below. */
  function ZeroFloorPlus(a: int, b: int): (r: int)
    ensures r >= 0
    ensures r >= a + b
    ensures r == a + b || r == 0
  {
    if a + b < 0 then 0 else a + b
  }

  /** The market and position after the entry's per-type deltas. */
  function ApplyMorphoTx(market: Market, position: Position, tx: MorphoTx): (Market, Position) {
    match tx.txType
    case Supply =>
      (market.(totalSupplyShares := market.totalSupplyShares + tx.shares,
               totalSupplyAssets := market.totalSupplyAssets + tx.assets),
       position.(supplyShares := position.supplyShares + tx.shares))
    case Borrow =>
      (market.(totalBorrowShares := market.totalBorrowShares + tx.shares,
               totalBorrowAssets := ZeroFloorPlus(market.totalBorrowAssets, tx.assets)),
       position.(borrowShares := position.borrowShares + tx.shares))
    case Collateral =>
      (market.(totalCollateral := market.totalCollateral + tx.assets),
       position.(collateral := position.collateral + tx.assets))
    case AccrueInterest =>
      (market.(totalSupplyShares := market.totalSupplyShares + tx.shares,
               totalSupplyAssets := market.totalSupplyAssets + tx.assets,
               totalBorrowAssets := market.totalBorrowAssets + tx.assets),
       position.(supplyShares := position.supplyShares + tx.shares))
  }

  /** The store after `handleMorphoTx(tx)`; fatal when the entry's market is unknown. */
  function AfterMorphoTx(s: State, tx: MorphoTx): Result<State> {
    var market :- GetMarket(s.markets, tx.market);
    var (s1, position) := WithPosition(s, tx.market, tx.user);
    var (market', position') := ApplyMorphoTx(market, position, tx);
    var (marketSnapshots, marketSnapshot) := WriteMarketSnapshot(s1.marketSnapshots, market', tx.timestamp, tx.blockNumber);
    var positionSnapshots := WritePositionSnapshot(s1.positionSnapshots, position', marketSnapshot, tx.timestamp, tx.blockNumber).0;
    Ok(s1.(markets := s1.markets[market'.id := market'],
           positions := s1.positions[position'.id := position'],
           marketSnapshots := marketSnapshots,
           positionSnapshots := positionSnapshots))
  }

  // ---------------------------------------------------------------------------
  // What one entry does

  /** The updated market and acting position an entry produces, from the stored ones. */
  function MorphoTxEffect(s: State, tx: MorphoTx): (Market, Position)
    requires tx.market in s.markets
  {
    ApplyMorphoTx(s.markets[tx.market], PositionOrZero(s, tx.market, tx.user), tx)
  }

  /**
   * An entry whose market exists replaces that market and the acting position
   * by their updated copies, registers the user, writes the two snapshots, and
   * changes nothing else.
   */
  lemma MorphoTxShape(s: State, tx: MorphoTx)
    requires MarketsKeyed(s.markets) && PositionsKeyed(s.positions, s.users, s.markets)
    requires tx.market in s.markets
    ensures var (m, p) := MorphoTxEffect(s, tx);
      var (marketSnapshots, marketSnapshot) := WriteMarketSnapshot(s.marketSnapshots, m, tx.timestamp, tx.blockNumber);
      AfterMorphoTx(s, tx) == Ok(s.(markets := s.markets[tx.market := m],
                                   positions := s.positions[PositionId(tx.market, tx.user) := p],
                                   users := s.users + {tx.user},
                                   marketSnapshots := marketSnapshots,
                                   positionSnapshots := WritePositionSnapshot(s.positionSnapshots, p, marketSnapshot, tx.timestamp, tx.blockNumber).0))
  {
    SetupPositionResult(s, tx.market, tx.user);
    var pid := PositionId(tx.market, tx.user);
    var p := MorphoTxEffect(s, tx).1;
    assert s.positions[pid := PositionOrZero(s, tx.market, tx.user)][pid := p] == s.positions[pid := p];
  }

  /**
   * An entry fails exactly when its market is unknown. Otherwise the market
   * and the acting position (the stored one, or a zero one) are replaced by
   * their updated copies, the user is registered, and every other market,
   * position, vault and ledger record is left as it was.
   */
  lemma MorphoTxResult(s: State, tx: MorphoTx)
    requires MarketsKeyed(s.markets) && PositionsKeyed(s.positions, s.users, s.markets)
    ensures var r := AfterMorphoTx(s, tx);
      (r.Fatal? <==> tx.market !in s.markets) &&
      (r.Ok? ==>
        var (market', position') := MorphoTxEffect(s, tx);
        r.value.markets == s.markets[tx.market := market'] &&
        r.value.positions == s.positions[PositionId(tx.market, tx.user) := position'] &&
        r.value.users == s.users + {tx.user} &&
        r.value.vaults == s.vaults && r.value.vaultPositions == s.vaultPositions &&
        r.value.morphoTxs == s.morphoTxs && r.value.vaultTxs == s.vaultTxs &&
        r.value.vaultSnapshots == s.vaultSnapshots && r.value.vaultPositionSnapshots == s.vaultPositionSnapshots &&
        r.value.rewardPrograms == s.rewardPrograms && r.value.morphoFeeRecipient == s.morphoFeeRecipient)
  {
    if tx.market in s.markets {
      MorphoTxShape(s, tx);
    }
  }

  /** A SUPPLY entry moves the supply shares and supply assets and nothing of the borrow or collateral side. */
  lemma SupplyTxEffect(s: State, tx: MorphoTx)
    requires MarketsKeyed(s.markets) && PositionsKeyed(s.positions, s.users, s.markets)
    requires tx.txType == Supply && tx.market in s.markets
    ensures AfterMorphoTx(s, tx).Ok?
    ensures var s', m, p := AfterMorphoTx(s, tx).value, s.markets[tx.market], PositionOrZero(s, tx.market, tx.user);
      s'.markets[tx.market] == m.(totalSupplyShares := m.totalSupplyShares + tx.shares,
                                  totalSupplyAssets := m.totalSupplyAssets + tx.assets) &&
      s'.positions[PositionId(tx.market, tx.user)] == p.(supplyShares := p.supplyShares + tx.shares)
  {
    MorphoTxResult(s, tx);
  }

  /**
   * A BORROW entry moves the borrow shares of position and market; the
   * market's borrow assets take the clamped sum, so they are never negative.
   */
  lemma BorrowTxEffect(s: State, tx: MorphoTx)
    requires MarketsKeyed(s.markets) && PositionsKeyed(s.positions, s.users, s.markets)
    requires tx.txType == Borrow && tx.market in s.markets
    ensures AfterMorphoTx(s, tx).Ok?
    ensures var s', m, p := AfterMorphoTx(s, tx).value, s.markets[tx.market], PositionOrZero(s, tx.market, tx.user);
      s'.markets[tx.market] == m.(totalBorrowShares := m.totalBorrowShares + tx.shares,
                                  totalBorrowAssets := ZeroFloorPlus(m.totalBorrowAssets, tx.assets)) &&
      s'.markets[tx.market].totalBorrowAssets >= 0 &&
      s'.positions[PositionId(tx.market, tx.user)] == p.(borrowShares := p.borrowShares + tx.shares)
  {
    MorphoTxResult(s, tx);
  }

  /** A COLLATERAL entry moves collateral only; every share and asset total is unchanged. */
  lemma CollateralTxEffect(s: State, tx: MorphoTx)
    requires MarketsKeyed(s.markets) && PositionsKeyed(s.positions, s.users, s.markets)
    requires tx.txType == Collateral && tx.market in s.markets
    ensures AfterMorphoTx(s, tx).Ok?
    ensures var s', m, p := AfterMorphoTx(s, tx).value, s.markets[tx.market], PositionOrZero(s, tx.market, tx.user);
      s'.markets[tx.market] == m.(totalCollateral := m.totalCollateral + tx.assets) &&
      s'.positions[PositionId(tx.market, tx.user)] == p.(collateral := p.collateral + tx.assets)
  {
    MorphoTxResult(s, tx);
  }

  /** An ACCRUE_INTEREST entry credits the fee shares and adds the interest to both asset totals, unclamped. */
  lemma AccrueInterestTxEffect(s: State, tx: MorphoTx)
    requires MarketsKeyed(s.markets) && PositionsKeyed(s.positions, s.users, s.markets)
    requires tx.txType == AccrueInterest && tx.market in s.markets
    ensures AfterMorphoTx(s, tx).Ok?
    ensures var s', m, p := AfterMorphoTx(s, tx).value, s.markets[tx.market], PositionOrZero(s, tx.market, tx.user);
      s'.markets[tx.market] == m.(totalSupplyShares := m.totalSupplyShares + tx.shares,
                                  totalSupplyAssets := m.totalSupplyAssets + tx.assets,
                                  totalBorrowAssets := m.totalBorrowAssets + tx.assets) &&
      s'.positions[PositionId(tx.market, tx.user)] == p.(supplyShares := p.supplyShares + tx.shares)
  {
    MorphoTxResult(s, tx);
  }

  /** Only the acting position changes: every other stored position is kept as it was. */
  lemma MorphoTxKeepsOtherPositions(s: State, tx: MorphoTx, id: Bytes)
    requires MarketsKeyed(s.markets) && PositionsKeyed(s.positions, s.users, s.markets)
    requires id in s.positions && id != PositionId(tx.market, tx.user)
    ensures AfterMorphoTx(s, tx).Ok? ==> AfterMorphoTx(s, tx).value.positions[id] == s.positions[id]
  {
    MorphoTxResult(s, tx);
  }

  /**
   * Both snapshots are taken after the deltas, at the entry's timestamp, and
   * the position snapshot points at the market snapshot of the same entry.
   */
  lemma MorphoTxSnapshots(s: State, tx: MorphoTx)
    requires MarketsKeyed(s.markets) && PositionsKeyed(s.positions, s.users, s.markets)
    requires MarketSnapshotsKeyed(s.marketSnapshots) && PositionSnapshotsKeyed(s.positionSnapshots, s.marketSnapshots)
    requires tx.market in s.markets
    ensures AfterMorphoTx(s, tx).Ok?
    ensures var s' := AfterMorphoTx(s, tx).value;
      var (m, p) := MorphoTxEffect(s, tx);
      var marketSnapshotId := SnapshotId(tx.market, tx.timestamp);
      var positionSnapshotId := SnapshotId(PositionId(tx.market, tx.user), tx.timestamp);
      s'.marketSnapshots == s.marketSnapshots[marketSnapshotId :=
        MarketSnapshot(marketSnapshotId, tx.market, m.totalSupplyShares, m.totalSupplyAssets,
                       m.totalBorrowShares, m.totalBorrowAssets, m.totalCollateral, tx.timestamp, tx.blockNumber)] &&
      s'.positionSnapshots == s.positionSnapshots[positionSnapshotId :=
        PositionSnapshot(positionSnapshotId, PositionId(tx.market, tx.user), tx.user, marketSnapshotId,
                         p.supplyShares, p.borrowShares, p.collateral, tx.timestamp, tx.blockNumber)]
  {
    MorphoTxShape(s, tx);
    PositionOrZeroFields(s, tx.market, tx.user);
    ApplyMorphoTxBalances(s.markets[tx.market], PositionOrZero(s, tx.market, tx.user), tx);
    var (m, p) := MorphoTxEffect(s, tx);
    var (marketSnapshots, marketSnapshot) := WriteMarketSnapshot(s.marketSnapshots, m, tx.timestamp, tx.blockNumber);
    var positionSnapshots := WritePositionSnapshot(s.positionSnapshots, p, marketSnapshot, tx.timestamp, tx.blockNumber).0;
    assert AfterMorphoTx(s, tx).value.marketSnapshots == marketSnapshots;
    assert AfterMorphoTx(s, tx).value.positionSnapshots == positionSnapshots;
    MarketSnapshotCopies(s.marketSnapshots, m, tx.timestamp, tx.blockNumber);
    PositionSnapshotCopies(s.positionSnapshots, p, marketSnapshot, tx.timestamp, tx.blockNumber);
  }

  // ---------------------------------------------------------------------------
  // Invariants

  /**
   * Replacing one market and one of its positions so that each of the three
   * market totals moves by exactly what the position moves keeps every market
   * balanced. `before` is the stored position, or a position holding nothing.
   */
  lemma MarketsBalancedReplace(markets: map<Bytes, Market>, positions: map<Bytes, Position>,
                               market': Market, before: Position, after: Position)
    requires MarketsKeyed(markets) && MarketsBalanced(markets, positions)
    requires market'.id in markets && before.id == after.id
    requires before.market == market'.id && after.market == market'.id
    requires before.id in positions ==> positions[before.id] == before
    requires before.id !in positions ==> before.supplyShares == 0 && before.borrowShares == 0 && before.collateral == 0
    requires market'.totalSupplyShares - markets[market'.id].totalSupplyShares == after.supplyShares - before.supplyShares
    requires market'.totalBorrowShares - markets[market'.id].totalBorrowShares == after.borrowShares - before.borrowShares
    requires market'.totalCollateral - markets[market'.id].totalCollateral == after.collateral - before.collateral
    ensures MarketsBalanced(markets[market'.id := market'], positions[after.id := after])
  {
    var markets', positions' := markets[market'.id := market'], positions[after.id := after];
    forall k | k in markets'
      ensures MarketBalanced(markets'[k], positions')
    {
      var mk := markets'[k];
      assert MarketBalanced(markets[k], positions);
      TotalUpdate(positions, SupplySharesIn(mk.id), after.id, after);
      TotalUpdate(positions, BorrowSharesIn(mk.id), after.id, after);
      TotalUpdate(positions, CollateralIn(mk.id), after.id, after);
    }
  }

  /** The per-type deltas move each share and collateral total of the market exactly as much as the position's. */
  lemma ApplyMorphoTxBalances(market: Market, position: Position, tx: MorphoTx)
    ensures var (m, p) := ApplyMorphoTx(market, position, tx);
      m.id == market.id && p.id == position.id && p.market == position.market && p.user == position.user &&
      m.totalSupplyShares - market.totalSupplyShares == p.supplyShares - position.supplyShares &&
      m.totalBorrowShares - market.totalBorrowShares == p.borrowShares - position.borrowShares &&
      m.totalCollateral - market.totalCollateral == p.collateral - position.collateral
  {
  }

  /** Every entry keeps each market's share and collateral totals equal to the sums over its positions. */
  lemma MorphoTxPreservesConserved(s: State, tx: MorphoTx)
    requires MarketsKeyed(s.markets) && PositionsKeyed(s.positions, s.users, s.markets)
    requires Conserved(s)
    ensures AfterMorphoTx(s, tx).Ok? ==> Conserved(AfterMorphoTx(s, tx).value)
  {
    if tx.market in s.markets {
      MorphoTxShape(s, tx);
      PositionOrZeroFields(s, tx.market, tx.user);
      var before := PositionOrZero(s, tx.market, tx.user);
      var (m, after) := MorphoTxEffect(s, tx);
      ApplyMorphoTxBalances(s.markets[tx.market], before, tx);
      MarketsBalancedReplace(s.markets, s.positions, m, before, after);
    }
  }

  /**
   * Every entry keeps each market's borrow assets non-negative, except an
   * ACCRUE_INTEREST entry with negative assets: BORROW entries add through
   * the zero floor, SUPPLY and COLLATERAL entries leave the borrow assets
   * alone, and only ACCRUE_INTEREST adds to them unclamped.
   */
  lemma MorphoTxKeepsBorrowAssets(s: State, tx: MorphoTx)
    requires MarketsKeyed(s.markets) && PositionsKeyed(s.positions, s.users, s.markets)
    requires BorrowAssetsNonNegative(s)
    requires tx.txType == AccrueInterest ==> tx.assets >= 0
    ensures AfterMorphoTx(s, tx).Ok? ==> BorrowAssetsNonNegative(AfterMorphoTx(s, tx).value)
  {
    if tx.market in s.markets {
      MorphoTxResult(s, tx);
    }
  }

  /** Without that exception the invariant fails: an unclamped negative accrual can leave a market owing less than nothing. */
  lemma NegativeAccrualBreaksBorrowAssets(s: State, tx: MorphoTx)
    requires MarketsKeyed(s.markets) && PositionsKeyed(s.positions, s.users, s.markets)
    requires tx.txType == AccrueInterest && tx.market in s.markets
    requires s.markets[tx.market].totalBorrowAssets + tx.assets < 0
    ensures AfterMorphoTx(s, tx).Ok? && !BorrowAssetsNonNegative(AfterMorphoTx(s, tx).value)
  {
    AccrueInterestTxEffect(s, tx);
  }

  /** Replacing a market and one of its positions in place keeps the entity tables keyed. */
  lemma ReplaceMarketAndPositionKeepsValid(s: State, m: Market, p: Position)
    requires Valid(s) && m.id in s.markets
    requires p.id == PositionId(p.market, p.user) && p.user in s.users && p.market in s.markets
    ensures Valid(s.(markets := s.markets[m.id := m], positions := s.positions[p.id := p]))
  {
    var markets' := s.markets[m.id := m];
    assert PositionsKeyed(s.positions[p.id := p], s.users, markets');
    assert ProgramsKeyed(s.rewardPrograms, markets', s.marketSnapshots);
  }

  /** Writing a market snapshot and a position snapshot linked to it keeps the snapshot tables keyed. */
  lemma MarketAndPositionSnapshotsKeepValid(s: State, m: Market, p: Position, timestamp: int, blockNumber: int)
    requires Valid(s)
    ensures var (marketSnapshots, marketSnapshot) := WriteMarketSnapshot(s.marketSnapshots, m, timestamp, blockNumber);
      Valid(s.(marketSnapshots := marketSnapshots,
               positionSnapshots := WritePositionSnapshot(s.positionSnapshots, p, marketSnapshot, timestamp, blockNumber).0))
  {
    MarketSnapshotKeepsKeyed(s, m, timestamp, blockNumber);
    var (marketSnapshots, marketSnapshot) := WriteMarketSnapshot(s.marketSnapshots, m, timestamp, blockNumber);
    PositionSnapshotKeepsKeyed(s.positionSnapshots, marketSnapshots, p, marketSnapshot, timestamp, blockNumber);
  }

  /** Every entry keeps the store well formed. */
  lemma MorphoTxPreservesValid(s: State, tx: MorphoTx)
    requires Valid(s)
    ensures AfterMorphoTx(s, tx).Ok? ==> Valid(AfterMorphoTx(s, tx).value)
  {
    if tx.market in s.markets {
      MorphoTxShape(s, tx);
      PositionOrZeroFields(s, tx.market, tx.user);
      var (m, p) := MorphoTxEffect(s, tx);
      ApplyMorphoTxBalances(s.markets[tx.market], PositionOrZero(s, tx.market, tx.user), tx);
      var s1 := s.(users := s.users + {tx.user});
      UsersGrowKeepsKeyed(s, s1.users);
      ReplaceMarketAndPositionKeepsValid(s1, m, p);
      var s2 := s1.(markets := s1.markets[m.id := m], positions := s1.positions[p.id := p]);
      MarketAndPositionSnapshotsKeepValid(s2, m, p, tx.timestamp, tx.blockNumber);
    }
  }

  // ---------------------------------------------------------------------------
  // The handler on the store

  method HandleMorphoTx(store: Store, tx: MorphoTx) returns (r: Result<()>)
    modifies store
    ensures var expected := AfterMorphoTx(old(store.Model()), tx);
      r.Ok? == expected.Ok? &&
      (r.Ok? ==> store.Model() == expected.value) &&
      (r.Fatal? ==> store.Model() == old(store.Model()))
  {
    var market :- GetMarket(store.markets, tx.market);
    var position := SetupPosition(store, tx.market, tx.user);
    ghost var loaded := (market, position);

    if tx.txType == Supply {
      position := position.(supplyShares := position.supplyShares + tx.shares);
      market := market.(totalSupplyShares := market.totalSupplyShares + tx.shares,
                        totalSupplyAssets := market.totalSupplyAssets + tx.assets);
    } else if tx.txType == Borrow {
      position := position.(borrowShares := position.borrowShares + tx.shares);
      market := market.(totalBorrowShares := market.totalBorrowShares + tx.shares,
                        totalBorrowAssets := ZeroFloorPlus(market.totalBorrowAssets, tx.assets));
    } else if tx.txType == Collateral {
      position := position.(collateral := position.collateral + tx.assets);
      market := market.(totalCollateral := market.totalCollateral + tx.assets);
    } else if tx.txType == AccrueInterest {
      position := position.(supplyShares := position.supplyShares + tx.shares);
      market := market.(totalSupplyShares := market.totalSupplyShares + tx.shares,
                        totalSupplyAssets := market.totalSupplyAssets + tx.assets,
                        totalBorrowAssets := market.totalBorrowAssets + tx.assets);
    }
    assert (market, position) == ApplyMorphoTx(loaded.0, loaded.1, tx);

    var marketSnapshot := SnapshotMarket(store, market, tx.timestamp, tx.blockNumber);
    var _ := SnapshotPosition(store, position, marketSnapshot, tx.timestamp, tx.blockNumber);

    store.markets := store.markets[market.id := market];
    store.positions := store.positions[position.id := position];
    return Ok(());
  }
}
