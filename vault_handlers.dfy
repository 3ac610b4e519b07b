/**
 * The vault event handlers (handlers/vault.ts): deposits, withdrawals,
 * share transfers and fee accruals become vault ledger entries; a fee
 * recipient change only updates the vault.
 */
module VaultHandlers {
  import opened Wrappers
  import opened Ids
  import opened Sums
  import opened Schema
  import opened Storage
  import opened Initializers
  import opened Snapshots
  import opened VaultLedger

  // ---------------------------------------------------------------------------
  // Events of a vault contract (the on-chain amounts are unsigned)

  datatype DepositEvent = DepositEvent(meta: EventMeta, sender: Address, owner: Address, assets: nat, shares: nat)
  datatype WithdrawEvent = WithdrawEvent(meta: EventMeta, sender: Address, receiver: Address, owner: Address, assets: nat, shares: nat)
  datatype TransferEvent = TransferEvent(meta: EventMeta, from: Address, to: Address, value: nat)
  datatype AccrueInterestEvent = AccrueInterestEvent(meta: EventMeta, newTotalAssets: nat, feeShares: nat)
  datatype SetFeeRecipientEvent = SetFeeRecipientEvent(meta: EventMeta, newFeeRecipient: Address)

  /** The ledger entry a handler builds field by field for `user` in `vault`. */
  function NewVaultTx(id: Bytes, meta: EventMeta, vault: Address, user: Address, shares: int, assets: int): VaultTx {
    VaultTx(id, vault, user, VaultPositionId(vault, user), shares, assets,
            meta.timestamp, meta.blockNumber, meta.txHash, meta.txIndex, meta.logIndex)
  }

  /** The entry `handleDeposit` builds: the owner gains the minted shares and the deposited assets. */
  function DepositTx(e: DepositEvent): VaultTx {
    NewVaultTx(e.meta.logId, e.meta, e.meta.address, e.owner, e.shares, e.assets)
  }

  /** The entry `handleWithdraw` builds: the owner (not the receiver) loses the burnt shares and the withdrawn assets. */
  function WithdrawTx(e: WithdrawEvent): VaultTx {
    NewVaultTx(e.meta.logId, e.meta, e.meta.address, e.owner, -(e.shares as int), -(e.assets as int))
  }

  /** The sending half of a share transfer, under the log id suffixed with side 1. */
  function TransferFromTx(meta: EventMeta, vault: Address, from: Address, shares: int): VaultTx {
    NewVaultTx(TransferTxId(meta.logId, FromSide), meta, vault, from, -shares, 0)
  }

  /** The receiving half of a share transfer, under the log id suffixed with side 2. */
  function TransferToTx(meta: EventMeta, vault: Address, to: Address, shares: int): VaultTx {
    NewVaultTx(TransferTxId(meta.logId, ToSide), meta, vault, to, shares, 0)
  }

  /** The entry for the fee shares minted to `recipient` on an accrual; the assets were already accrued. */
  function FeeTx(e: AccrueInterestEvent, recipient: Address): VaultTx {
    NewVaultTx(e.meta.logId, e.meta, e.meta.address, recipient, e.feeShares, 0)
  }

  // ---------------------------------------------------------------------------
  // The handlers, as functions of the store

  /**
   * The store after the step every handler repeats: load the vault, set up
   * the user and the vault position, save the entry, then `handleVaultTx`.
   */
  function AfterRecordVaultTx(s: State, tx: VaultTx): Result<State> {
    var vault :- SetupVault(s.vaults, tx.vault);
    var s1 := WithUser(s, tx.user);
    var setup :- WithVaultPosition(s1, tx.vault, tx.user);
    var s2 := setup.0;
    AfterVaultTx(s2.(vaultTxs := s2.vaultTxs[tx.id := tx]), tx)
  }

  /** The first half of `handleAccrueInterest`: the vault's new asset total is assigned, snapshotted and saved. */
  function WithTotalAssets(s: State, vault: Vault, e: AccrueInterestEvent): State {
    var vault' := vault.(totalAssets := e.newTotalAssets);
    s.(vaults := s.vaults[vault'.id := vault'],
       vaultSnapshots := WriteVaultSnapshot(s.vaultSnapshots, vault', e.meta.timestamp, e.meta.blockNumber).0)
  }

  /** `handleAccrueInterest`: the new asset total is assigned and snapshotted; fee shares go to the fee recipient. */
  function AfterAccrueInterest(s: State, e: AccrueInterestEvent): Result<State> {
    var vault :- SetupVault(s.vaults, e.meta.address);
    var s1 := WithTotalAssets(s, vault, e);
    if e.feeShares == 0 then Ok(s1)
    else if vault.feeRecipient.None? then Fatal("Fee recipient not set for Vault")
    else AfterRecordVaultTx(s1, FeeTx(e, vault.feeRecipient.value))
  }

  /** `handleDeposit`: the owner is credited the deposited shares and assets. */
  function AfterDeposit(s: State, e: DepositEvent): Result<State> {
    AfterRecordVaultTx(s, DepositTx(e))
  }

  /** `handleWithdraw`: the owner (not the receiver) is debited the withdrawn shares and assets. */
  function AfterWithdraw(s: State, e: WithdrawEvent): Result<State> {
    AfterRecordVaultTx(s, WithdrawTx(e))
  }

  /** `handleTransferEntity`: two entries moving `shares` from `from` to `to`, none for a self-transfer. */
  function AfterTransferEntity(s: State, meta: EventMeta, vault: Address, from: Address, to: Address, shares: int): Result<State> {
    if from == to then Ok(s)
    else AfterRecordPair(s, TransferFromTx(meta, vault, from, shares), TransferToTx(meta, vault, to, shares))
  }

  /** Two entries recorded one after the other, stopping at the first failure. */
  function AfterRecordPair(s: State, first: VaultTx, second: VaultTx): Result<State> {
    var s1 :- AfterRecordVaultTx(s, first);
    AfterRecordVaultTx(s1, second)
  }

  /** Mints, burns and moves into or out of the lending protocol (`morpho`) are not vault transfers. */
  predicate SkippedTransfer(e: TransferEvent, morpho: Address) {
    e.from == ZeroAddress || e.to == ZeroAddress || e.from == morpho || e.to == morpho
  }

  /** `handleTransfer`. */
  function AfterTransfer(s: State, e: TransferEvent, morpho: Address): Result<State> {
    if SkippedTransfer(e, morpho) then Ok(s)
    else AfterTransferEntity(s, e.meta, e.meta.address, e.from, e.to, e.value)
  }

  /** `handleSetFeeRecipient`: the vault's fee recipient is replaced, and registered as a user. */
  function AfterSetFeeRecipient(s: State, e: SetFeeRecipientEvent): Result<State> {
    var vault :- SetupVault(s.vaults, e.meta.address);
    var s1 := WithUser(s, e.newFeeRecipient);
    Ok(s1.(vaults := s1.vaults[vault.id := vault.(feeRecipient := Some(e.newFeeRecipient))]))
  }

  // ---------------------------------------------------------------------------
  // One recorded entry

  /** The three entity invariants the ledger lemmas need. */
  ghost predicate EntitiesKeyed(s: State) {
    MarketsKeyed(s.markets) && VaultsKeyed(s.vaults, s.users) && VaultPositionsKeyed(s.vaultPositions, s.users, s.vaults)
  }

  /** The user and position set-up of the recording step, seen from the store. */
  lemma RecordVaultTxSetup(s: State, tx: VaultTx)
    requires EntitiesKeyed(s) && tx.vault in s.vaults
    ensures var pid := VaultPositionId(tx.vault, tx.user);
      AfterRecordVaultTx(s, tx) ==
      AfterVaultTx(s.(users := s.users + {tx.user},
                      vaultPositions := s.vaultPositions[pid := VaultPositionOrZero(s, tx.vault, tx.user)],
                      vaultTxs := s.vaultTxs[tx.id := tx]), tx)
  {
    var s1 := WithUser(s, tx.user);
    assert VaultsKeyed(s1.vaults, s1.users);
    assert VaultPositionsKeyed(s1.vaultPositions, s1.users, s1.vaults);
    SetupVaultPositionResult(s1, tx.vault, tx.user);
  }

  /** The ledger creates the acting position and registers the user itself: doing it beforehand changes nothing. */
  lemma VaultTxAfterSetup(s: State, tx: VaultTx)
    requires EntitiesKeyed(s) && tx.vault in s.vaults
    ensures var pid := VaultPositionId(tx.vault, tx.user);
      AfterVaultTx(s.(users := s.users + {tx.user},
                      vaultPositions := s.vaultPositions[pid := VaultPositionOrZero(s, tx.vault, tx.user)]), tx) ==
      AfterVaultTx(s, tx)
  {
    var pid := VaultPositionId(tx.vault, tx.user);
    var p0 := VaultPositionOrZero(s, tx.vault, tx.user);
    var s3 := s.(users := s.users + {tx.user}, vaultPositions := s.vaultPositions[pid := p0]);
    assert EntitiesKeyed(s3) by {
      VaultPositionsKeyedInsert(s.vaultPositions, s3.users, s.vaults, p0);
    }
    assert VaultPositionOrZero(s3, tx.vault, tx.user) == p0;
    var p := VaultTxEffect(s, tx).1;
    assert VaultTxEffect(s3, tx) == VaultTxEffect(s, tx);
    assert s3.vaultPositions[pid := p] == s.vaultPositions[pid := p];
    VaultTxShape(s3, tx);
    VaultTxShape(s, tx);
  }

  /**
   * Setting up the user and the position before the ledger does changes
   * nothing the ledger would not do itself: recording an entry for an
   * existing vault is saving it and applying it.
   */
  lemma RecordVaultTxIsSaveThenApply(s: State, tx: VaultTx)
    requires EntitiesKeyed(s) && tx.vault in s.vaults
    ensures AfterRecordVaultTx(s, tx) == AfterVaultTx(s.(vaultTxs := s.vaultTxs[tx.id := tx]), tx)
  {
    var s' := s.(vaultTxs := s.vaultTxs[tx.id := tx]);
    RecordVaultTxSetup(s, tx);
    VaultTxAfterSetup(s', tx);
    assert VaultPositionOrZero(s', tx.vault, tx.user) == VaultPositionOrZero(s, tx.vault, tx.user);
  }

  /** Saving the entry first does not change the vault and position the ledger starts from. */
  lemma EffectIgnoresLedger(s: State, tx: VaultTx)
    requires tx.vault in s.vaults
    ensures VaultTxEffect(s.(vaultTxs := s.vaultTxs[tx.id := tx]), tx) == VaultTxEffect(s, tx)
  {
    assert VaultPositionOrZero(s.(vaultTxs := s.vaultTxs[tx.id := tx]), tx.vault, tx.user) == VaultPositionOrZero(s, tx.vault, tx.user);
  }

  /**
   * Recording an entry for a known vault replaces the vault and the acting
   * position by their updated copies, registers the user, saves the entry and
   * writes the two snapshots.
   */
  lemma RecordVaultTxShape(s: State, tx: VaultTx)
    requires EntitiesKeyed(s) && tx.vault in s.vaults
    ensures var (v, p) := VaultTxEffect(s, tx);
      var (vaultSnapshots, vaultSnapshot) := WriteVaultSnapshot(s.vaultSnapshots, v, tx.timestamp, tx.blockNumber);
      AfterRecordVaultTx(s, tx) == Ok(s.(vaults := s.vaults[tx.vault := v],
                                        vaultPositions := s.vaultPositions[VaultPositionId(tx.vault, tx.user) := p],
                                        users := s.users + {tx.user},
                                        vaultTxs := s.vaultTxs[tx.id := tx],
                                        vaultSnapshots := vaultSnapshots,
                                        vaultPositionSnapshots := WriteVaultPositionSnapshot(s.vaultPositionSnapshots, p, vaultSnapshot, tx.timestamp, tx.blockNumber).0))
  {
    var saved := s.(vaultTxs := s.vaultTxs[tx.id := tx]);
    assert AfterRecordVaultTx(s, tx) == AfterVaultTx(saved, tx) by {
      RecordVaultTxIsSaveThenApply(s, tx);
    }
    EffectIgnoresLedger(s, tx);
    assert saved.vaultSnapshots == s.vaultSnapshots && saved.vaultPositionSnapshots == s.vaultPositionSnapshots;
    VaultTxShape(saved, tx);
  }

  /**
   * Recording an entry fails exactly when its vault is unknown. Otherwise the
   * entry is saved under its id, the user is registered, the vault's totals
   * and the acting position's shares (zero for a new position) move by exactly
   * the entry's deltas, and no market, position or other ledger changes.
   */
  lemma RecordVaultTxResult(s: State, tx: VaultTx)
    requires EntitiesKeyed(s)
    ensures var r := AfterRecordVaultTx(s, tx);
      (r.Fatal? <==> tx.vault !in s.vaults) &&
      (r.Ok? ==>
        var s', v, p := r.value, s.vaults[tx.vault], VaultPositionOrZero(s, tx.vault, tx.user);
        s'.vaults == s.vaults[tx.vault := v.(totalShares := v.totalShares + tx.shares, totalAssets := v.totalAssets + tx.assets)] &&
        s'.vaultPositions == s.vaultPositions[VaultPositionId(tx.vault, tx.user) := p.(shares := p.shares + tx.shares)] &&
        s'.users == s.users + {tx.user} &&
        s'.vaultTxs == s.vaultTxs[tx.id := tx] &&
        s'.markets == s.markets && s'.positions == s.positions && s'.morphoTxs == s.morphoTxs &&
        s'.marketSnapshots == s.marketSnapshots && s'.positionSnapshots == s.positionSnapshots &&
        s'.rewardPrograms == s.rewardPrograms && s'.morphoFeeRecipient == s.morphoFeeRecipient)
  {
    RecordVaultTxFails(s, tx);
    RecordVaultTxVaults(s, tx);
    RecordVaultTxPositions(s, tx);
    RecordVaultTxSaves(s, tx);
    RecordVaultTxLeavesMarketSide(s, tx);
  }

  /** Recording an entry fails exactly when its vault is unknown, whatever the store. */
  lemma RecordVaultTxFails(s: State, tx: VaultTx)
    ensures AfterRecordVaultTx(s, tx).Fatal? <==> tx.vault !in s.vaults
  {
    if tx.vault in s.vaults {
      var s1 := WithUser(s, tx.user);
      assert s1.vaults == s.vaults;
      var setup := WithVaultPosition(s1, tx.vault, tx.user);
      assert setup.Ok?;
      assert setup.value.0.vaults == s.vaults;
    }
  }

  /** The vault of a recorded entry moves by exactly the entry's deltas; no other vault changes. */
  lemma RecordVaultTxVaults(s: State, tx: VaultTx)
    requires EntitiesKeyed(s)
    ensures var r := AfterRecordVaultTx(s, tx);
      r.Ok? ==>
        tx.vault in s.vaults &&
        (var v := s.vaults[tx.vault];
         r.value.vaults == s.vaults[tx.vault := v.(totalShares := v.totalShares + tx.shares, totalAssets := v.totalAssets + tx.assets)])
  {
    if tx.vault in s.vaults {
      RecordVaultTxShape(s, tx);
    } else {
      RecordVaultTxFails(s, tx);
    }
  }

  /** The acting position of a recorded entry (zero when new) moves by exactly the entry's share delta; no other position changes. */
  lemma RecordVaultTxPositions(s: State, tx: VaultTx)
    requires EntitiesKeyed(s)
    ensures var r, p := AfterRecordVaultTx(s, tx), VaultPositionOrZero(s, tx.vault, tx.user);
      r.Ok? ==> r.value.vaultPositions == s.vaultPositions[VaultPositionId(tx.vault, tx.user) := p.(shares := p.shares + tx.shares)]
  {
    RecordVaultTxFails(s, tx);
    if tx.vault in s.vaults {
      RecordVaultTxShape(s, tx);
    }
  }

  /** A recorded entry leaves every other vault position alone. */
  lemma RecordVaultTxLeavesPosition(s: State, tx: VaultTx, id: Bytes)
    requires EntitiesKeyed(s) && id != VaultPositionId(tx.vault, tx.user)
    ensures var r := AfterRecordVaultTx(s, tx);
      r.Ok? ==> (id in r.value.vaultPositions <==> id in s.vaultPositions) &&
                (id in s.vaultPositions ==> r.value.vaultPositions[id] == s.vaultPositions[id])
  {
    RecordVaultTxPositions(s, tx);
  }

  /** A recorded entry is saved under its id and its user is registered. */
  lemma RecordVaultTxSaves(s: State, tx: VaultTx)
    requires EntitiesKeyed(s)
    ensures var r := AfterRecordVaultTx(s, tx);
      r.Ok? ==> r.value.vaultTxs == s.vaultTxs[tx.id := tx] && r.value.users == s.users + {tx.user}
  {
    if tx.vault in s.vaults {
      RecordVaultTxShape(s, tx);
    }
  }

  /** A recorded entry changes nothing on the lending-protocol side. */
  lemma RecordVaultTxLeavesMarketSide(s: State, tx: VaultTx)
    requires EntitiesKeyed(s)
    ensures var r := AfterRecordVaultTx(s, tx);
      r.Ok? ==>
        r.value.markets == s.markets && r.value.positions == s.positions && r.value.morphoTxs == s.morphoTxs &&
        r.value.marketSnapshots == s.marketSnapshots && r.value.positionSnapshots == s.positionSnapshots &&
        r.value.rewardPrograms == s.rewardPrograms && r.value.morphoFeeRecipient == s.morphoFeeRecipient
  {
    if tx.vault in s.vaults {
      RecordVaultTxShape(s, tx);
    }
  }

  /** Recording an entry keeps the entity tables keyed. */
  lemma RecordVaultTxKeepsKeyed(s: State, tx: VaultTx)
    requires EntitiesKeyed(s)
    ensures AfterRecordVaultTx(s, tx).Ok? ==> EntitiesKeyed(AfterRecordVaultTx(s, tx).value)
  {
    if tx.vault in s.vaults {
      RecordVaultTxShape(s, tx);
      VaultPositionOrZeroFields(s, tx.vault, tx.user);
      var s' := AfterRecordVaultTx(s, tx).value;
      assert VaultsKeyed(s'.vaults, s'.users);
      VaultPositionsKeyedInsert(s.vaultPositions, s'.users, s'.vaults, s'.vaultPositions[VaultPositionId(tx.vault, tx.user)]);
    }
  }

  /** Recording an entry keeps the store well formed. */
  lemma RecordVaultTxPreservesValid(s: State, tx: VaultTx)
    requires Valid(s)
    ensures AfterRecordVaultTx(s, tx).Ok? ==> Valid(AfterRecordVaultTx(s, tx).value)
  {
    if tx.vault in s.vaults {
      RecordVaultTxIsSaveThenApply(s, tx);
      VaultTxPreservesValid(s.(vaultTxs := s.vaultTxs[tx.id := tx]), tx);
    }
  }

  /** Recording an entry keeps every vault's share total equal to the sum of its positions' shares. */
  lemma RecordVaultTxPreservesConserved(s: State, tx: VaultTx)
    requires EntitiesKeyed(s) && Conserved(s)
    ensures AfterRecordVaultTx(s, tx).Ok? ==> Conserved(AfterRecordVaultTx(s, tx).value)
  {
    if tx.vault in s.vaults {
      RecordVaultTxIsSaveThenApply(s, tx);
      VaultTxPreservesConserved(s.(vaultTxs := s.vaultTxs[tx.id := tx]), tx);
    }
  }

  // ---------------------------------------------------------------------------
  // Deposits and withdrawals

  /** A deposit fails exactly when the vault is unknown. */
  lemma DepositFails(s: State, e: DepositEvent)
    ensures AfterDeposit(s, e).Fatal? <==> e.meta.address !in s.vaults
  {
    RecordVaultTxFails(s, DepositTx(e));
  }

  /** A deposit saves one entry, under the event's log id, for the owner, and registers the owner. */
  lemma DepositRecordsEntry(s: State, e: DepositEvent)
    requires EntitiesKeyed(s)
    ensures var r := AfterDeposit(s, e);
      r.Ok? ==>
        r.value.vaultTxs == s.vaultTxs[e.meta.logId := DepositTx(e)] &&
        r.value.users == s.users + {e.owner}
  {
    RecordVaultTxResult(s, DepositTx(e));
  }

  /** A deposit credits the vault and the owner's position (zero when new) with exactly the deposited shares and assets. */
  lemma DepositCredits(s: State, e: DepositEvent)
    requires EntitiesKeyed(s)
    ensures var r, vault, pid := AfterDeposit(s, e), e.meta.address, VaultPositionId(e.meta.address, e.owner);
      r.Ok? ==>
        vault in s.vaults && vault in r.value.vaults && pid in r.value.vaultPositions &&
        r.value.vaults[vault].totalShares == s.vaults[vault].totalShares + e.shares &&
        r.value.vaults[vault].totalAssets == s.vaults[vault].totalAssets + e.assets &&
        r.value.vaultPositions[pid].shares == VaultPositionOrZero(s, vault, e.owner).shares + e.shares
  {
    RecordVaultTxFails(s, DepositTx(e));
    RecordVaultTxResult(s, DepositTx(e));
  }

  /** A withdrawal fails exactly when the vault is unknown. */
  lemma WithdrawFails(s: State, e: WithdrawEvent)
    ensures AfterWithdraw(s, e).Fatal? <==> e.meta.address !in s.vaults
  {
    RecordVaultTxFails(s, WithdrawTx(e));
  }

  /** A withdrawal saves one entry, under the event's log id, for the owner, and registers the owner. */
  lemma WithdrawRecordsEntry(s: State, e: WithdrawEvent)
    requires EntitiesKeyed(s)
    ensures var r := AfterWithdraw(s, e);
      r.Ok? ==>
        r.value.vaultTxs == s.vaultTxs[e.meta.logId := WithdrawTx(e)] &&
        r.value.users == s.users + {e.owner}
  {
    RecordVaultTxResult(s, WithdrawTx(e));
  }

  /** A withdrawal debits the vault and the owner's position with exactly the withdrawn shares and assets. */
  lemma WithdrawDebitsOwner(s: State, e: WithdrawEvent)
    requires EntitiesKeyed(s)
    ensures var r, vault, pid := AfterWithdraw(s, e), e.meta.address, VaultPositionId(e.meta.address, e.owner);
      r.Ok? ==>
        vault in s.vaults && vault in r.value.vaults && pid in r.value.vaultPositions &&
        r.value.vaults[vault].totalShares == s.vaults[vault].totalShares - e.shares &&
        r.value.vaults[vault].totalAssets == s.vaults[vault].totalAssets - e.assets &&
        r.value.vaultPositions[pid].shares == VaultPositionOrZero(s, vault, e.owner).shares - e.shares
  {
    RecordVaultTxFails(s, WithdrawTx(e));
    RecordVaultTxResult(s, WithdrawTx(e));
  }

  /** The receiver of the withdrawn assets keeps its vault position untouched unless it is the owner. */
  lemma WithdrawLeavesReceiver(s: State, e: WithdrawEvent)
    requires EntitiesKeyed(s)
    requires e.receiver != e.owner
    ensures var r, rid := AfterWithdraw(s, e), VaultPositionId(e.meta.address, e.receiver);
      r.Ok? ==> (rid in r.value.vaultPositions <==> rid in s.vaultPositions) &&
                (rid in s.vaultPositions ==> r.value.vaultPositions[rid] == s.vaultPositions[rid])
  {
    ScopedIdInjective(e.meta.address, e.owner, e.meta.address, e.receiver);
    RecordVaultTxResult(s, WithdrawTx(e));
  }

  /** Withdrawing every share a position holds leaves it at zero. */
  lemma WithdrawAllEmptiesPosition(s: State, e: WithdrawEvent)
    requires EntitiesKeyed(s)
    requires e.meta.address in s.vaults
    requires VaultPositionId(e.meta.address, e.owner) in s.vaultPositions
    requires s.vaultPositions[VaultPositionId(e.meta.address, e.owner)].shares == e.shares
    ensures var r, pid := AfterWithdraw(s, e), VaultPositionId(e.meta.address, e.owner);
      r.Ok? && pid in r.value.vaultPositions && r.value.vaultPositions[pid].shares == 0
  {
    WithdrawFails(s, e);
    WithdrawDebitsOwner(s, e);
  }

  // ---------------------------------------------------------------------------
  // Two entries in a row

  /** Two entries for the same vault fail exactly when the vault is unknown. */
  lemma RecordPairFails(s: State, first: VaultTx, second: VaultTx)
    requires EntitiesKeyed(s) && first.vault == second.vault
    ensures AfterRecordPair(s, first, second).Fatal? <==> first.vault !in s.vaults
  {
    RecordVaultTxFails(s, first);
    if first.vault in s.vaults {
      RecordVaultTxVaults(s, first);
      RecordVaultTxFails(AfterRecordVaultTx(s, first).value, second);
    }
  }

  /** Two entries for two holders of one vault move the vault by both deltas and each holder's position by its own. */
  lemma RecordPairMoves(s: State, first: VaultTx, second: VaultTx)
    requires EntitiesKeyed(s) && first.vault == second.vault && first.user != second.user
    ensures var r, vault := AfterRecordPair(s, first, second), first.vault;
      var fid, sid := VaultPositionId(vault, first.user), VaultPositionId(vault, second.user);
      r.Ok? ==>
        vault in s.vaults && vault in r.value.vaults &&
        r.value.vaults[vault].totalShares == s.vaults[vault].totalShares + first.shares + second.shares &&
        r.value.vaults[vault].totalAssets == s.vaults[vault].totalAssets + first.assets + second.assets &&
        fid in r.value.vaultPositions && sid in r.value.vaultPositions &&
        r.value.vaultPositions[fid].shares == VaultPositionOrZero(s, vault, first.user).shares + first.shares &&
        r.value.vaultPositions[sid].shares == VaultPositionOrZero(s, vault, second.user).shares + second.shares
  {
    RecordVaultTxFails(s, first);
    if first.vault in s.vaults && AfterRecordVaultTx(s, first).Ok? {
      RecordVaultTxVaults(s, first);
      RecordVaultTxPositions(s, first);
      RecordVaultTxKeepsKeyed(s, first);
      var s1 := AfterRecordVaultTx(s, first).value;
      RecordVaultTxVaults(s1, second);
      RecordVaultTxPositions(s1, second);
      ScopedIdInjective(first.vault, first.user, first.vault, second.user);
      assert VaultPositionOrZero(s1, first.vault, second.user) == VaultPositionOrZero(s, first.vault, second.user);
    }
  }

  /** Two entries are both saved and both users registered. */
  lemma RecordPairSaves(s: State, first: VaultTx, second: VaultTx)
    requires EntitiesKeyed(s)
    ensures var r := AfterRecordPair(s, first, second);
      r.Ok? ==> r.value.vaultTxs == s.vaultTxs[first.id := first][second.id := second] &&
                r.value.users == s.users + {first.user, second.user}
  {
    if AfterRecordVaultTx(s, first).Ok? {
      RecordVaultTxSaves(s, first);
      RecordVaultTxKeepsKeyed(s, first);
      RecordVaultTxSaves(AfterRecordVaultTx(s, first).value, second);
    }
  }

  /** Two entries leave every position other than their two acting ones alone. */
  lemma RecordPairLeavesOthers(s: State, first: VaultTx, second: VaultTx, id: Bytes)
    requires EntitiesKeyed(s)
    requires id != VaultPositionId(first.vault, first.user) && id != VaultPositionId(second.vault, second.user)
    ensures var r := AfterRecordPair(s, first, second);
      r.Ok? ==> (id in r.value.vaultPositions <==> id in s.vaultPositions) &&
                (id in s.vaultPositions ==> r.value.vaultPositions[id] == s.vaultPositions[id])
  {
    if AfterRecordVaultTx(s, first).Ok? {
      RecordVaultTxLeavesPosition(s, first, id);
      RecordVaultTxKeepsKeyed(s, first);
      RecordVaultTxLeavesPosition(AfterRecordVaultTx(s, first).value, second, id);
    }
  }

  lemma RecordPairPreservesValid(s: State, first: VaultTx, second: VaultTx)
    requires Valid(s)
    ensures AfterRecordPair(s, first, second).Ok? ==> Valid(AfterRecordPair(s, first, second).value)
  {
    RecordVaultTxPreservesValid(s, first);
    if AfterRecordVaultTx(s, first).Ok? {
      RecordVaultTxPreservesValid(AfterRecordVaultTx(s, first).value, second);
    }
  }

  lemma RecordPairPreservesConserved(s: State, first: VaultTx, second: VaultTx)
    requires EntitiesKeyed(s) && Conserved(s)
    ensures AfterRecordPair(s, first, second).Ok? ==> Conserved(AfterRecordPair(s, first, second).value)
  {
    RecordVaultTxPreservesConserved(s, first);
    RecordVaultTxKeepsKeyed(s, first);
    if AfterRecordVaultTx(s, first).Ok? {
      RecordVaultTxPreservesConserved(AfterRecordVaultTx(s, first).value, second);
    }
  }

  // ---------------------------------------------------------------------------
  // Share transfers

  /** A self-transfer changes nothing; any other transfer fails exactly when the vault is unknown. */
  lemma TransferEntityFails(s: State, meta: EventMeta, vault: Address, from: Address, to: Address, shares: int)
    requires EntitiesKeyed(s)
    ensures var r := AfterTransferEntity(s, meta, vault, from, to, shares);
      (from == to ==> r == Ok(s)) && (r.Fatal? <==> from != to && vault !in s.vaults)
  {
    RecordPairFails(s, TransferFromTx(meta, vault, from, shares), TransferToTx(meta, vault, to, shares));
  }

  /**
   * A transfer between two holders takes the shares off the sender's position
   * and adds them to the receiver's (each zero when new), and leaves the
   * vault's totals as they were.
   */
  lemma TransferEntityMovesShares(s: State, meta: EventMeta, vault: Address, from: Address, to: Address, shares: int)
    requires EntitiesKeyed(s) && from != to
    ensures var r, fid, tid := AfterTransferEntity(s, meta, vault, from, to, shares), VaultPositionId(vault, from), VaultPositionId(vault, to);
      r.Ok? ==>
        vault in s.vaults && vault in r.value.vaults &&
        r.value.vaults[vault].totalShares == s.vaults[vault].totalShares &&
        r.value.vaults[vault].totalAssets == s.vaults[vault].totalAssets &&
        fid in r.value.vaultPositions && tid in r.value.vaultPositions &&
        r.value.vaultPositions[fid].shares == VaultPositionOrZero(s, vault, from).shares - shares &&
        r.value.vaultPositions[tid].shares == VaultPositionOrZero(s, vault, to).shares + shares
  {
    var fromTx, toTx := TransferFromTx(meta, vault, from, shares), TransferToTx(meta, vault, to, shares);
    assert fromTx.vault == vault && fromTx.user == from && fromTx.shares == -shares && fromTx.assets == 0;
    assert toTx.vault == vault && toTx.user == to && toTx.shares == shares && toTx.assets == 0;
    RecordPairMoves(s, fromTx, toTx);
  }

  /** A transfer between two holders saves both halves under their two distinct ids and registers both holders. */
  lemma TransferEntityRecordsEntries(s: State, meta: EventMeta, vault: Address, from: Address, to: Address, shares: int)
    requires EntitiesKeyed(s) && from != to
    ensures var r, fromTx, toTx := AfterTransferEntity(s, meta, vault, from, to, shares),
                                  TransferFromTx(meta, vault, from, shares), TransferToTx(meta, vault, to, shares);
      r.Ok? ==>
        r.value.vaultTxs == s.vaultTxs[fromTx.id := fromTx][toTx.id := toTx] &&
        fromTx.id != toTx.id && r.value.vaultTxs[fromTx.id] == fromTx &&
        r.value.users == s.users + {from, to}
  {
    TransferTxIdsDistinct(meta.logId);
    RecordPairSaves(s, TransferFromTx(meta, vault, from, shares), TransferToTx(meta, vault, to, shares));
  }

  /** A transfer leaves the vault position of every holder other than the two parties alone. */
  lemma TransferEntityLeavesOthers(s: State, meta: EventMeta, vault: Address, from: Address, to: Address, shares: int, other: Address)
    requires EntitiesKeyed(s) && other != from && other != to
    ensures var r, oid := AfterTransferEntity(s, meta, vault, from, to, shares), VaultPositionId(vault, other);
      r.Ok? ==> (oid in r.value.vaultPositions <==> oid in s.vaultPositions) &&
                (oid in s.vaultPositions ==> r.value.vaultPositions[oid] == s.vaultPositions[oid])
  {
    ScopedIdInjective(vault, from, vault, other);
    ScopedIdInjective(vault, to, vault, other);
    RecordPairLeavesOthers(s, TransferFromTx(meta, vault, from, shares), TransferToTx(meta, vault, to, shares), VaultPositionId(vault, other));
  }

  /** A transfer touches only the vault side of the store: no market, position or market ledger entry changes. */
  lemma TransferEntityLeavesMarkets(s: State, meta: EventMeta, vault: Address, from: Address, to: Address, shares: int)
    requires EntitiesKeyed(s)
    ensures var r := AfterTransferEntity(s, meta, vault, from, to, shares);
      r.Ok? ==>
        r.value.markets == s.markets && r.value.positions == s.positions && r.value.morphoTxs == s.morphoTxs &&
        r.value.marketSnapshots == s.marketSnapshots && r.value.positionSnapshots == s.positionSnapshots &&
        r.value.rewardPrograms == s.rewardPrograms && r.value.morphoFeeRecipient == s.morphoFeeRecipient
  {
    var first, second := TransferFromTx(meta, vault, from, shares), TransferToTx(meta, vault, to, shares);
    if from != to && AfterRecordVaultTx(s, first).Ok? {
      RecordVaultTxResult(s, first);
      RecordVaultTxKeepsKeyed(s, first);
      RecordVaultTxResult(AfterRecordVaultTx(s, first).value, second);
    }
  }

  /** A transfer keeps the store well formed. */
  lemma TransferEntityPreservesValid(s: State, meta: EventMeta, vault: Address, from: Address, to: Address, shares: int)
    requires Valid(s)
    ensures var r := AfterTransferEntity(s, meta, vault, from, to, shares);
      r.Ok? ==> Valid(r.value)
  {
    if from != to {
      RecordPairPreservesValid(s, TransferFromTx(meta, vault, from, shares), TransferToTx(meta, vault, to, shares));
    }
  }

  /** A transfer keeps every vault's share total equal to the sum of its positions' shares. */
  lemma TransferEntityPreservesConserved(s: State, meta: EventMeta, vault: Address, from: Address, to: Address, shares: int)
    requires EntitiesKeyed(s) && Conserved(s)
    ensures var r := AfterTransferEntity(s, meta, vault, from, to, shares);
      r.Ok? ==> Conserved(r.value)
  {
    if from != to {
      var first, second := TransferFromTx(meta, vault, from, shares), TransferToTx(meta, vault, to, shares);
      assert AfterTransferEntity(s, meta, vault, from, to, shares) == AfterRecordPair(s, first, second);
      RecordPairPreservesConserved(s, first, second);
    }
  }

  /**
   * A mint, a burn, a move into or out of the lending protocol and a
   * self-transfer change nothing; any other transfer fails exactly when the
   * vault is unknown.
   */
  lemma TransferFails(s: State, e: TransferEvent, morpho: Address)
    requires EntitiesKeyed(s)
    ensures var r := AfterTransfer(s, e, morpho);
      (SkippedTransfer(e, morpho) || e.from == e.to ==> r == Ok(s)) &&
      (r.Fatal? <==> !SkippedTransfer(e, morpho) && e.from != e.to && e.meta.address !in s.vaults)
  {
    TransferEntityFails(s, e.meta, e.meta.address, e.from, e.to, e.value);
  }

  // ---------------------------------------------------------------------------
  // Interest accrual and the fee recipient

  /** Assigning the new asset total keeps the entity tables keyed: the vault keeps its id and fee recipient. */
  lemma WithTotalAssetsKeepsKeyed(s: State, e: AccrueInterestEvent)
    requires EntitiesKeyed(s) && e.meta.address in s.vaults
    ensures var s1 := WithTotalAssets(s, s.vaults[e.meta.address], e);
      EntitiesKeyed(s1) && s1.vaults.Keys == s.vaults.Keys &&
      s1.vaults[e.meta.address] == s.vaults[e.meta.address].(totalAssets := e.newTotalAssets)
  {
    var s1 := WithTotalAssets(s, s.vaults[e.meta.address], e);
    assert VaultsKeyed(s1.vaults, s1.users);
    assert VaultPositionsKeyed(s1.vaultPositions, s1.users, s1.vaults);
  }

  lemma WithTotalAssetsPreservesValid(s: State, e: AccrueInterestEvent)
    requires Valid(s) && e.meta.address in s.vaults
    ensures Valid(WithTotalAssets(s, s.vaults[e.meta.address], e))
  {
    var vault := s.vaults[e.meta.address].(totalAssets := e.newTotalAssets);
    WithTotalAssetsKeepsKeyed(s, e);
    VaultSnapshotKeepsKeyed(s.vaultSnapshots, s.vaultPositionSnapshots, vault, e.meta.timestamp, e.meta.blockNumber);
  }

  lemma WithTotalAssetsPreservesConserved(s: State, e: AccrueInterestEvent)
    requires EntitiesKeyed(s) && Conserved(s) && e.meta.address in s.vaults
    ensures Conserved(WithTotalAssets(s, s.vaults[e.meta.address], e))
  {
    var vault := s.vaults[e.meta.address];
    var s1 := WithTotalAssets(s, vault, e);
    forall k | k in s1.vaults
      ensures VaultBalanced(s1.vaults[k], s1.vaultPositions)
    {
      assert VaultBalanced(s.vaults[k], s.vaultPositions);
    }
  }

  /**
   * An accrual fails exactly when the vault is unknown, or when fee shares
   * were minted while the vault has no fee recipient.
   */
  lemma AccrueInterestFails(s: State, e: AccrueInterestEvent)
    ensures var r, vault := AfterAccrueInterest(s, e), e.meta.address;
      r.Fatal? <==> vault !in s.vaults || (e.feeShares != 0 && s.vaults[vault].feeRecipient.None?)
  {
    var vault := e.meta.address;
    if vault in s.vaults && e.feeShares != 0 && s.vaults[vault].feeRecipient.Some? {
      var s1 := WithTotalAssets(s, s.vaults[vault], e);
      assert vault in s1.vaults;
      RecordVaultTxFails(s1, FeeTx(e, s.vaults[vault].feeRecipient.value));
    }
  }

  /**
   * An accrual sets the vault's asset total to the reported one (the fee
   * entry moves no assets), adds the fee shares to its share total and keeps
   * its fee recipient.
   */
  lemma AccrueInterestSetsTotals(s: State, e: AccrueInterestEvent)
    requires EntitiesKeyed(s)
    ensures var r, vault := AfterAccrueInterest(s, e), e.meta.address;
      r.Ok? ==>
        vault in s.vaults && vault in r.value.vaults &&
        r.value.vaults[vault].totalAssets == e.newTotalAssets &&
        r.value.vaults[vault].totalShares == s.vaults[vault].totalShares + e.feeShares &&
        r.value.vaults[vault].feeRecipient == s.vaults[vault].feeRecipient
  {
    var vault := e.meta.address;
    AccrueInterestFails(s, e);
    if vault in s.vaults {
      WithTotalAssetsKeepsKeyed(s, e);
      var s1 := WithTotalAssets(s, s.vaults[vault], e);
      if e.feeShares != 0 && s.vaults[vault].feeRecipient.Some? {
        RecordVaultTxVaults(s1, FeeTx(e, s.vaults[vault].feeRecipient.value));
      }
    }
  }

  /**
   * Without fee shares an accrual records no entry and touches no position,
   * no position snapshot and no user; its only snapshot is the vault's own,
   * taken with the new asset total.
   */
  lemma AccrueInterestWithoutFee(s: State, e: AccrueInterestEvent)
    requires e.feeShares == 0
    ensures var r := AfterAccrueInterest(s, e);
      r.Ok? ==>
        r.value.vaultTxs == s.vaultTxs && r.value.vaultPositions == s.vaultPositions && r.value.users == s.users &&
        r.value.vaultPositionSnapshots == s.vaultPositionSnapshots &&
        r.value.vaultSnapshots ==
          WriteVaultSnapshot(s.vaultSnapshots, s.vaults[e.meta.address].(totalAssets := e.newTotalAssets), e.meta.timestamp, e.meta.blockNumber).0
  {
  }

  /**
   * Every successful accrual leaves one vault snapshot at the event's
   * timestamp holding the vault's final totals: the reported asset total and
   * the share total grown by the fee shares (with fee shares, the fee entry's
   * snapshot supersedes the accrual's own at the same id). No other vault
   * snapshot changes.
   */
  lemma AccrueInterestSnapshotsVault(s: State, e: AccrueInterestEvent)
    requires EntitiesKeyed(s) && VaultSnapshotsKeyed(s.vaultSnapshots)
    ensures var r, vault := AfterAccrueInterest(s, e), e.meta.address;
      r.Ok? ==>
        vault in s.vaults &&
        var v, id := s.vaults[vault], SnapshotId(vault, e.meta.timestamp);
        r.value.vaultSnapshots == s.vaultSnapshots[id :=
          VaultSnapshot(id, vault, v.feeRecipient, v.totalShares + e.feeShares, e.newTotalAssets, e.meta.timestamp, e.meta.blockNumber)]
  {
    var vault := e.meta.address;
    if vault in s.vaults {
      var v0 := s.vaults[vault];
      var accrued := v0.(totalAssets := e.newTotalAssets);
      VaultSnapshotCopies(s.vaultSnapshots, accrued, e.meta.timestamp, e.meta.blockNumber);
      if e.feeShares != 0 && v0.feeRecipient.Some? {
        var s1 := WithTotalAssets(s, v0, e);
        var tx := FeeTx(e, v0.feeRecipient.value);
        WithTotalAssetsKeepsKeyed(s, e);
        RecordVaultTxShape(s1, tx);
        var (v, p) := VaultTxEffect(s1, tx);
        VaultSnapshotCoalesces(s.vaultSnapshots, accrued, v, e.meta.timestamp, e.meta.blockNumber, e.meta.blockNumber);
        VaultSnapshotCopies(s.vaultSnapshots, v, e.meta.timestamp, e.meta.blockNumber);
      }
    }
  }

  /**
   * With fee shares an accrual records one entry, under the event's log id,
   * crediting them to the fee recipient's position (zero when new).
   */
  lemma AccrueInterestPaysFee(s: State, e: AccrueInterestEvent)
    requires EntitiesKeyed(s) && e.feeShares != 0
    ensures var r, vault := AfterAccrueInterest(s, e), e.meta.address;
      r.Ok? ==>
        vault in s.vaults && s.vaults[vault].feeRecipient.Some? &&
        var recipient := s.vaults[vault].feeRecipient.value;
        var pid := VaultPositionId(vault, recipient);
        r.value.vaultTxs == s.vaultTxs[e.meta.logId := FeeTx(e, recipient)] &&
        r.value.users == s.users + {recipient} &&
        pid in r.value.vaultPositions &&
        r.value.vaultPositions[pid].shares == VaultPositionOrZero(s, vault, recipient).shares + e.feeShares
  {
    var vault := e.meta.address;
    AccrueInterestFails(s, e);
    if vault in s.vaults && s.vaults[vault].feeRecipient.Some? {
      var recipient := s.vaults[vault].feeRecipient.value;
      WithTotalAssetsKeepsKeyed(s, e);
      var s1 := WithTotalAssets(s, s.vaults[vault], e);
      RecordVaultTxSaves(s1, FeeTx(e, recipient));
      RecordVaultTxPositions(s1, FeeTx(e, recipient));
      assert VaultPositionOrZero(s1, vault, recipient) == VaultPositionOrZero(s, vault, recipient);
    }
  }

  /** An accrual touches only the vault side: no market changes. */
  lemma AccrueInterestLeavesMarkets(s: State, e: AccrueInterestEvent)
    requires EntitiesKeyed(s)
    ensures AfterAccrueInterest(s, e).Ok? ==> AfterAccrueInterest(s, e).value.markets == s.markets
  {
    var vault := e.meta.address;
    if vault in s.vaults {
      WithTotalAssetsKeepsKeyed(s, e);
      if e.feeShares != 0 && s.vaults[vault].feeRecipient.Some? {
        RecordVaultTxLeavesMarketSide(WithTotalAssets(s, s.vaults[vault], e), FeeTx(e, s.vaults[vault].feeRecipient.value));
      }
    }
  }

  /** An accrual keeps the store well formed. */
  lemma AccrueInterestPreservesValid(s: State, e: AccrueInterestEvent)
    requires Valid(s)
    ensures AfterAccrueInterest(s, e).Ok? ==> Valid(AfterAccrueInterest(s, e).value)
  {
    var vault := e.meta.address;
    if vault in s.vaults {
      WithTotalAssetsPreservesValid(s, e);
      if e.feeShares != 0 && s.vaults[vault].feeRecipient.Some? {
        RecordVaultTxPreservesValid(WithTotalAssets(s, s.vaults[vault], e), FeeTx(e, s.vaults[vault].feeRecipient.value));
      }
    }
  }

  /** An accrual keeps every vault's share total equal to the sum of its positions' shares. */
  lemma AccrueInterestPreservesConserved(s: State, e: AccrueInterestEvent)
    requires EntitiesKeyed(s) && Conserved(s)
    ensures AfterAccrueInterest(s, e).Ok? ==> Conserved(AfterAccrueInterest(s, e).value)
  {
    var vault := e.meta.address;
    if vault in s.vaults {
      WithTotalAssetsPreservesConserved(s, e);
      WithTotalAssetsKeepsKeyed(s, e);
      if e.feeShares != 0 && s.vaults[vault].feeRecipient.Some? {
        RecordVaultTxPreservesConserved(WithTotalAssets(s, s.vaults[vault], e), FeeTx(e, s.vaults[vault].feeRecipient.value));
      }
    }
  }

  /**
   * Setting the fee recipient fails exactly when the vault is unknown;
   * otherwise it replaces that vault's fee recipient, registers the recipient
   * as a user and changes nothing else: no entry, position or snapshot, on
   * either the vault or the market side.
   */
  lemma SetFeeRecipientResult(s: State, e: SetFeeRecipientEvent)
    requires EntitiesKeyed(s)
    ensures var r, vault := AfterSetFeeRecipient(s, e), e.meta.address;
      (r.Fatal? <==> vault !in s.vaults) &&
      (r.Ok? ==>
        r.value == s.(vaults := s.vaults[vault := s.vaults[vault].(feeRecipient := Some(e.newFeeRecipient))],
                      users := s.users + {e.newFeeRecipient}))
  {
  }

  lemma SetFeeRecipientPreservesValid(s: State, e: SetFeeRecipientEvent)
    requires Valid(s)
    ensures AfterSetFeeRecipient(s, e).Ok? ==> Valid(AfterSetFeeRecipient(s, e).value)
  {
    if e.meta.address in s.vaults {
      var s' := AfterSetFeeRecipient(s, e).value;
      assert VaultsKeyed(s'.vaults, s'.users);
      assert VaultPositionsKeyed(s'.vaultPositions, s'.users, s'.vaults);
      UsersGrowKeepsKeyed(s, s'.users);
    }
  }

  lemma SetFeeRecipientPreservesConserved(s: State, e: SetFeeRecipientEvent)
    requires EntitiesKeyed(s) && Conserved(s)
    ensures AfterSetFeeRecipient(s, e).Ok? ==> Conserved(AfterSetFeeRecipient(s, e).value)
  {
    if e.meta.address in s.vaults {
      var s' := AfterSetFeeRecipient(s, e).value;
      forall k | k in s'.vaults
        ensures VaultBalanced(s'.vaults[k], s'.vaultPositions)
      {
        assert VaultBalanced(s.vaults[k], s.vaultPositions);
      }
    }
  }

  /** Once a fee recipient is set, an accrual on that vault no longer fails, and its fee shares go to that recipient. */
  lemma FeeRecipientReceivesFees(s: State, change: SetFeeRecipientEvent, accrual: AccrueInterestEvent)
    requires EntitiesKeyed(s) && change.meta.address in s.vaults
    requires accrual.meta.address == change.meta.address && accrual.feeShares != 0
    ensures var s1 := AfterSetFeeRecipient(s, change);
      s1.Ok? && AfterAccrueInterest(s1.value, accrual).Ok? &&
      AfterAccrueInterest(s1.value, accrual).value.vaultTxs == s1.value.vaultTxs[accrual.meta.logId := FeeTx(accrual, change.newFeeRecipient)]
  {
    SetFeeRecipientResult(s, change);
    var s1 := AfterSetFeeRecipient(s, change).value;
    assert EntitiesKeyed(s1) by {
      assert VaultsKeyed(s1.vaults, s1.users);
      assert VaultPositionsKeyed(s1.vaultPositions, s1.users, s1.vaults);
    }
    AccrueInterestFails(s1, accrual);
    AccrueInterestPaysFee(s1, accrual);
  }

  // ---------------------------------------------------------------------------
  // The handlers on the store

  /** The recording step: load the vault, set up the user and the position, save the entry, apply it. */
  method RecordVaultTx(store: Store, tx: VaultTx) returns (r: Result<()>)
    modifies store
    ensures var expected := AfterRecordVaultTx(old(store.Model()), tx);
      r.Ok? == expected.Ok? &&
      (r.Ok? ==> store.Model() == expected.value) &&
      (r.Fatal? ==> store.Model() == old(store.Model()))
  {
    ghost var s0 := store.Model();
    var vault :- SetupVault(store.vaults, tx.vault);
    var user := SetupUser(store, tx.user);
    ghost var s1 := store.Model();
    assert s1.vaults == s0.vaults;
    var setup := SetupVaultPosition(store, tx.vault, tx.user);
    assert setup.Ok?;
    ghost var s2 := store.Model();
    assert WithVaultPosition(s1, tx.vault, tx.user) == Ok((s2, setup.value));
    store.vaultTxs := store.vaultTxs[tx.id := tx];
    assert store.Model() == s2.(vaultTxs := s2.vaultTxs[tx.id := tx]);
    r := HandleVaultTx(store, tx);
  }

  /** `handleDeposit` on the store. */
  method HandleDeposit(store: Store, e: DepositEvent) returns (r: Result<()>)
    modifies store
    ensures var expected := AfterDeposit(old(store.Model()), e);
      r.Ok? == expected.Ok? &&
      (r.Ok? ==> store.Model() == expected.value) &&
      (r.Fatal? ==> store.Model() == old(store.Model()))
  {
    r := RecordVaultTx(store, DepositTx(e));
  }

  /** `handleWithdraw` on the store. */
  method HandleWithdraw(store: Store, e: WithdrawEvent) returns (r: Result<()>)
    modifies store
    ensures var expected := AfterWithdraw(old(store.Model()), e);
      r.Ok? == expected.Ok? &&
      (r.Ok? ==> store.Model() == expected.value) &&
      (r.Fatal? ==> store.Model() == old(store.Model()))
  {
    r := RecordVaultTx(store, WithdrawTx(e));
  }

  /** `handleTransferEntity` on the store. */
  method HandleTransferEntity(store: Store, meta: EventMeta, vault: Address, from: Address, to: Address, shares: int)
    returns (r: Result<()>)
    modifies store
    ensures var expected := AfterTransferEntity(old(store.Model()), meta, vault, from, to, shares);
      r.Ok? == expected.Ok? &&
      (r.Ok? ==> store.Model() == expected.value) &&
      (r.Fatal? ==> store.Model() == old(store.Model()))
  {
    if from == to {
      return Ok(());
    }
    var _ :- RecordVaultTx(store, TransferFromTx(meta, vault, from, shares));
    // The first entry found the vault, so the second cannot fail.
    ghost var s1 := store.Model();
    assert vault in s1.vaults;
    RecordVaultTxFails(s1, TransferToTx(meta, vault, to, shares));
    r := RecordVaultTx(store, TransferToTx(meta, vault, to, shares));
  }

  /** `handleTransfer` on the store; `morpho` is the lending protocol's address. */
  method HandleTransfer(store: Store, e: TransferEvent, morpho: Address) returns (r: Result<()>)
    modifies store
    ensures var expected := AfterTransfer(old(store.Model()), e, morpho);
      r.Ok? == expected.Ok? &&
      (r.Ok? ==> store.Model() == expected.value) &&
      (r.Fatal? ==> store.Model() == old(store.Model()))
  {
    if e.from == ZeroAddress || e.to == ZeroAddress || e.from == morpho || e.to == morpho {
      return Ok(());
    }
    r := HandleTransferEntity(store, e.meta, e.meta.address, e.from, e.to, e.value);
  }

  /** `handleAccrueInterest` on the store. */
  method HandleAccrueInterest(store: Store, e: AccrueInterestEvent) returns (r: Result<()>)
    modifies store
    ensures var expected := AfterAccrueInterest(old(store.Model()), e);
      r.Ok? == expected.Ok? &&
      (r.Ok? ==> store.Model() == expected.value)
  {
    ghost var s0 := store.Model();
    var vault :- SetupVault(store.vaults, e.meta.address);
    vault := vault.(totalAssets := e.newTotalAssets);
    var _ := SnapshotVault(store, vault, e.meta.timestamp, e.meta.blockNumber);
    store.vaults := store.vaults[vault.id := vault];
    assert store.Model() == WithTotalAssets(s0, s0.vaults[e.meta.address], e);

    if e.feeShares == 0 {
      return Ok(());
    }
    if vault.feeRecipient.None? {
      return Fatal("Fee recipient not set for Vault");
    }
    r := RecordVaultTx(store, FeeTx(e, vault.feeRecipient.value));
  }

  /** `handleSetFeeRecipient` on the store. */
  method HandleSetFeeRecipient(store: Store, e: SetFeeRecipientEvent) returns (r: Result<()>)
    modifies store
    ensures var expected := AfterSetFeeRecipient(old(store.Model()), e);
      r.Ok? == expected.Ok? &&
      (r.Ok? ==> store.Model() == expected.value) &&
      (r.Fatal? ==> store.Model() == old(store.Model()))
  {
    var vault :- SetupVault(store.vaults, e.meta.address);
    var recipient := SetupUser(store, e.newFeeRecipient);
    store.vaults := store.vaults[vault.id := vault.(feeRecipient := Some(recipient))];
    return Ok(());
  }
}
